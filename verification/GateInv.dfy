/** One inductive invariant of the /risk gate, piece by piece: every event any submitter,
    worker or the outside world can take keeps it. */
module GateInv {
  import opened Budget
  import opened Sha256
  import opened Gate

  // ---------------------------------------------------------------------------------
  // Submitters one by one
  // ---------------------------------------------------------------------------------

  /** What a request has charged to respErr by the time it is at pc. */
  function Charge(pc: SubPc): int {
    match pc
    case FrontShed => 1
    case Leave(reserved) => if reserved then 1 else 0
    case Release => 1
    case Shed => 1
    case _ => 0
  }

  predicate Done(pc: SubPc) {
    pc.Got? || pc.Answered?
  }

  /** Before the push: the waiter does not exist yet. */
  predicate Outside(pc: SubPc) {
    pc.Enter? || pc.Backstop? || pc.FrontShed? || pc.Push?
    || ((pc.LoadOk? || pc.LoadErr? || pc.Cas?) && pc.door.Front?)
  }

  /** Pushed and not given up. */
  predicate Hoping(pc: SubPc) {
    pc.Send? || pc.Wait? || pc.Leave? || ((pc.LoadOk? || pc.LoadErr? || pc.Cas?) && pc.door.Patience?)
  }

  /** Never both taken and abandoned; a waiter popped without being taken stays untaken. */
  predicate FateOk(u: Sub) {
    !(u.w.taken && u.w.abandoned) && (u.w.taken || u.w.abandoned || u.w.skipped ==> u.w.pushed) && !(u.w.taken && u.w.skipped)
  }

  predicate PhaseOk(u: Sub) {
    && (Outside(u.pc) ==> !u.w.pushed)
    && (Hoping(u.pc) ==> u.w.pushed && !u.w.abandoned)
    && (u.pc.Release? || u.pc.Recv? || Done(u.pc) ==> u.w.taken)
    && (u.pc.Disconnect? ==> u.w.abandoned)
    && (u.pc.Shed? ==> u.w.pushed ==> u.w.abandoned)
  }

  predicate DeliveryOk(u: Sub) {
    && u.w.sends <= 1
    && (u.w.sends == 1 ==> u.w.taken)
    && u.w.chan == (if u.w.sends == 1 && !Done(u.pc) then [RiskHash(u.seed)] else [])
    && (Done(u.pc) ==> u.w.sends == 1 && u.pc.hash == RiskHash(u.seed))
  }

  predicate SubOk(u: Sub) {
    && u.net == Charge(u.pc)
    && FateOk(u)
    && PhaseOk(u)
    && DeliveryOk(u)
  }

  ghost predicate SubsOk(s: State) {
    forall i | 0 <= i < |s.subs| :: SubOk(s.subs[i])
  }

  // ---------------------------------------------------------------------------------
  // Counters
  // ---------------------------------------------------------------------------------

  function NetSum(subs: seq<Sub>): int {
    if subs == [] then 0 else NetSum(subs[..|subs| - 1]) + subs[|subs| - 1].net
  }

  function Answers(subs: seq<Sub>): nat {
    if subs == [] then 0 else Answers(subs[..|subs| - 1]) + if subs[|subs| - 1].pc.Answered? then 1 else 0
  }

  lemma {:induction false} SetSums(subs: seq<Sub>, i: nat, u: Sub)
    requires i < |subs|
    ensures NetSum(subs[i := u]) == NetSum(subs) - subs[i].net + u.net
    ensures Answers(subs[i := u]) == Answers(subs) - (if subs[i].pc.Answered? then 1 else 0) + if u.pc.Answered? then 1 else 0
  {
    var n := |subs| - 1;
    var t := subs[i := u];
    if i == n {
      assert t[..n] == subs[..n];
    } else {
      SetSums(subs[..n], i, u);
      assert t[..n] == subs[..n][i := u];
    }
  }

  /** respErr is what the requests have charged, net, plus stale skips and plain errors;
      respOK the answered requests and plain successes. */
  ghost predicate Accounts(s: State) {
    && s.ctr.respErr == NetSum(s.subs) + s.ctr.staleSkips + s.ctr.plainErr
    && s.ctr.respOK == Answers(s.subs) + s.ctr.plainOK
  }

  predicate Reserving(s: State, pc: SubPc) {
    && (pc.LoadErr? || pc.Cas? ==> pc.ok <= s.ctr.respOK)
    && (pc.Cas? ==> Affordable(pc.ok, pc.err, s.conf.Bp()))
  }

  predicate CountersOk(c: Counters, bp: int) {
    Within(c.respErr - c.unbudgeted, c.respOK + c.respErr, bp)
  }

  ghost predicate BudgetOk(s: State) {
    && CountersOk(s.ctr, s.conf.Bp())
    && forall i | 0 <= i < |s.subs| :: Reserving(s, s.subs[i].pc)
  }

  // ---------------------------------------------------------------------------------
  // Mutex, stack, ownership
  // ---------------------------------------------------------------------------------

  /** Holding the mutex between steps. */
  predicate Holds(pc: SubPc) {
    pc.FrontShed? || pc.Push? || ((pc.LoadOk? || pc.LoadErr? || pc.Cas?) && pc.door.Front?)
  }

  ghost predicate MutexOk(s: State) {
    && (forall i | 0 <= i < |s.subs| :: Holds(s.subs[i].pc) ==> s.mu == BySub(i))
    && (forall j | 0 <= j < |s.workers| :: s.workers[j].Taking? ==> s.mu == ByWorker(j))
    && (s.mu.BySub? ==> s.mu.i < |s.subs| && Holds(s.subs[s.mu.i].pc))
    && (s.mu.ByWorker? ==> s.mu.j < |s.workers| && s.workers[s.mu.j].Taking?)
  }

  /** Trying to reserve an error at the front door, or having just done so. */
  predicate AtFront(pc: SubPc) {
    Holds(pc) && !pc.Push?
  }

  /** A request is shed on arrival only while waiters are parked and no worker is idle. */
  ghost predicate FrontOk(s: State) {
    forall i | 0 <= i < |s.subs| && AtFront(s.subs[i].pc) :: s.depth > 0 && s.idle == 0
  }

  predicate OnStack(u: Sub) {
    u.w.pushed && !u.w.taken && !u.w.skipped
  }

  /** The stack lists, once each, exactly the waiters parked and not popped. */
  ghost predicate Parks(subs: seq<Sub>, stack: seq<nat>) {
    && (forall k | 0 <= k < |stack| :: stack[k] < |subs| && OnStack(subs[stack[k]]))
    && (forall k, l | 0 <= k < l < |stack| :: stack[k] != stack[l])
    && (forall i | 0 <= i < |subs| && OnStack(subs[i]) :: i in stack)
  }

  /** Enqueue times never increase from the top of the stack down. */
  ghost predicate NewestFirst(subs: seq<Sub>, stack: seq<nat>, clock: int) {
    && (forall k | 0 <= k < |stack| :: stack[k] < |subs| && subs[stack[k]].w.enqueued <= clock)
    && (forall k, l | 0 <= k < l < |stack| :: subs[stack[k]].w.enqueued >= subs[stack[l]].w.enqueued)
  }

  ghost predicate StackOk(s: State) {
    && s.depth == |s.stack| <= STACK_BACKSTOP
    && (s.mu.BySub? ==> s.depth < STACK_BACKSTOP)
    && Parks(s.subs, s.stack)
    && NewestFirst(s.subs, s.stack, s.clock)
  }

  function Batch(w: Worker): seq<nat> {
    if w.Taking? || w.Running? then w.batch else []
  }

  /** Taken, digest still to come. */
  predicate Owed(u: Sub) {
    u.w.taken && u.w.sends == 0
  }

  ghost predicate BatchOk(subs: seq<Sub>, j: nat, b: seq<nat>) {
    && (forall k | 0 <= k < |b| :: b[k] < |subs| && Owed(subs[b[k]]) && subs[b[k]].w.owner == j)
    && (forall k, l | 0 <= k < l < |b| :: b[k] != b[l])
  }

  /** A waiter whose digest is owed is in the batch of exactly one worker, once; every batch
      holds only such waiters. */
  ghost predicate Carries(subs: seq<Sub>, ws: seq<Worker>) {
    && (forall j | 0 <= j < |ws| :: BatchOk(subs, j, Batch(ws[j])))
    && (forall i | 0 <= i < |subs| && Owed(subs[i]) :: subs[i].w.owner < |ws| && i in Batch(ws[subs[i].w.owner]))
  }

  predicate ShapeOk(w: Worker) {
    && (w.Running? ==> 1 <= |w.batch| <= MAX_LANES)
    && (w.Take? ==> 1 <= w.want <= MAX_LANES)
    && (w.Taking? ==> |w.batch| <= w.want && 1 <= w.want <= MAX_LANES)
  }

  ghost predicate BatchesOk(s: State) {
    Carries(s.subs, s.workers) && forall j | 0 <= j < |s.workers| :: ShapeOk(s.workers[j])
  }

  // ---------------------------------------------------------------------------------
  // A take in progress
  // ---------------------------------------------------------------------------------

  /** The waiters of a list that have been taken, in order. */
  function TakenAmong(subs: seq<Sub>, ids: seq<nat>): seq<nat> {
    if ids == [] then []
    else
      var i := ids[|ids| - 1];
      TakenAmong(subs, ids[..|ids| - 1]) + if i < |subs| && subs[i].w.taken then [i] else []
  }

  /** The stack is what the pops have left of the stack the take found; the batch is what was
      taken of the popped part, and no shorter part would have been enough. */
  ghost predicate TakePrefix(subs: seq<Sub>, stack: seq<nat>, want: nat, batch: seq<nat>, from: seq<nat>) {
    && |stack| <= |from|
    && stack == from[|from| - |stack|..]
    && batch == TakenAmong(subs, from[..|from| - |stack|])
    && (forall m | 0 <= m < |from| - |stack| :: |TakenAmong(subs, from[..m])| < want)
    && (forall k, l | 0 <= k < l < |from| :: from[k] != from[l])
  }

  ghost predicate TakeOk(s: State) {
    forall j | 0 <= j < |s.workers| && s.workers[j].Taking? ::
      var w := s.workers[j];
      TakePrefix(s.subs, s.stack, w.want, w.batch, w.from)
  }

  /** The waiters of a list whose verdict was to serve them. */
  function Chosen(ids: seq<nat>, seen: seq<Verdict>): seq<nat>
    requires |ids| == |seen|
  {
    if ids == [] then []
    else
      var n := |ids| - 1;
      Chosen(ids[..n], seen[..n]) + if seen[n].Serve? then [ids[n]] else []
  }

  function Stales(seen: seq<Verdict>): nat {
    if seen == [] then 0
    else Stales(seen[..|seen| - 1]) + if seen[|seen| - 1].Stale? then 1 else 0
  }

  /** One verdict for every waiter popped; the batch is those to serve, and the stale skips
      counted since the take began are its stale ones. */
  ghost predicate TakeVerdicts(stack: seq<nat>, skips: nat, w: Worker)
    requires w.Taking?
  {
    && |stack| + |w.seen| == |w.from|
    && w.batch == Chosen(w.from[..|w.seen|], w.seen)
    && skips == w.skips + Stales(w.seen)
  }

  ghost predicate VerdictsOk(s: State) {
    forall j | 0 <= j < |s.workers| && s.workers[j].Taking? :: TakeVerdicts(s.stack, s.ctr.staleSkips, s.workers[j])
  }

  // ---------------------------------------------------------------------------------
  // Workers asleep and awake
  // ---------------------------------------------------------------------------------

  predicate CountsIdle(w: Worker) {
    w.Parked? || w.Woken?
  }

  function IdleCount(ws: seq<Worker>): nat {
    if ws == [] then 0 else IdleCount(ws[..|ws| - 1]) + if CountsIdle(ws[|ws| - 1]) then 1 else 0
  }

  lemma {:induction false} SetIdle(ws: seq<Worker>, j: nat, w: Worker)
    requires j < |ws|
    ensures IdleCount(ws[j := w]) == IdleCount(ws) - (if CountsIdle(ws[j]) then 1 else 0) + if CountsIdle(w) then 1 else 0
  {
    var n := |ws| - 1;
    var t := ws[j := w];
    if j == n {
      assert t[..n] == ws[..n];
    } else {
      SetIdle(ws[..n], j, w);
      assert t[..n] == ws[..n][j := w];
    }
  }

  /** Will look at the stack before it blocks again. */
  predicate Awake(w: Worker) {
    w.Top? || w.Take? || w.Taking? || w.Woken? || w.Running?
  }

  ghost predicate SomeoneWillLook(s: State) {
    || s.tokens > 0
    || (exists i :: 0 <= i < |s.subs| && s.subs[i].pc.Send?)
    || (exists j :: 0 <= j < |s.workers| && Awake(s.workers[j]))
  }

  ghost predicate WakeupOk(s: State) {
    s.stack != [] ==> SomeoneWillLook(s)
  }

  ghost predicate IdleOk(s: State) {
    s.idle == IdleCount(s.workers)
  }

  ghost predicate Inv(s: State) {
    && SubsOk(s) && Accounts(s) && BudgetOk(s) && MutexOk(s) && FrontOk(s) && StackOk(s)
    && TakeOk(s) && VerdictsOk(s) && BatchesOk(s) && WakeupOk(s) && IdleOk(s)
  }

  // ---------------------------------------------------------------------------------
  // Footprints: what each kind of event leaves alone
  // ---------------------------------------------------------------------------------

  lemma SubFrame(s: State, e: Event)
    requires Ready(s, e) && BySubmitter(e)
    ensures e.i < |s.subs|
    ensures var t := SubStep(s, e);
      && t.subs == s.subs[e.i := t.subs[e.i]]
      && t.workers == s.workers && t.idle == s.idle && t.clock == s.clock && t.conf == s.conf
  {
    hide Affordable, RiskHash;
  }

  /** A submitter's charges and its answer reach the counters exactly as its record says. */
  lemma SubCounts(s: State, e: Event)
    requires Ready(s, e) && BySubmitter(e)
    ensures e.i < |s.subs|
    ensures var t := SubStep(s, e);
      && t.ctr.respErr - s.ctr.respErr == t.subs[e.i].net - s.subs[e.i].net
      && t.ctr.respOK - s.ctr.respOK == (if t.subs[e.i].pc.Answered? then 1 else 0) - (if s.subs[e.i].pc.Answered? then 1 else 0)
      && t.ctr.staleSkips == s.ctr.staleSkips && t.ctr.plainOK == s.ctr.plainOK && t.ctr.plainErr == s.ctr.plainErr
  {
    hide Affordable, RiskHash;
  }

  lemma SubFate(s: State, e: Event)
    requires Ready(s, e) && BySubmitter(e) && e.i < |s.subs| && FateOk(s.subs[e.i])
    requires e.LeaveGate? ==> s.subs[e.i].w.pushed
    ensures FateOk(SubStep(s, e).subs[e.i])
  {
    hide Affordable;
  }

  /** Events on the way to the stack. */
  predicate Arriving(e: Event) {
    e.EnterGate? || e.ChargeBackstop? || e.ReadOk? || e.ReadErr? || e.TryCas? || e.UnlockShed? || e.PushWaiter?
  }

  lemma SubNetIn(s: State, e: Event)
    requires Ready(s, e) && BySubmitter(e) && e.i < |s.subs| && Arriving(e)
    requires s.subs[e.i].net == Charge(s.subs[e.i].pc)
    ensures var u' := SubStep(s, e).subs[e.i]; u'.net == Charge(u'.pc)
  {
    hide Affordable;
  }

  lemma SubNetOut(s: State, e: Event)
    requires Ready(s, e) && BySubmitter(e) && e.i < |s.subs| && !Arriving(e)
    requires s.subs[e.i].net == Charge(s.subs[e.i].pc)
    ensures var u' := SubStep(s, e).subs[e.i]; u'.net == Charge(u'.pc)
  {
  }

  lemma SubPhaseIn(s: State, e: Event)
    requires Ready(s, e) && BySubmitter(e) && e.i < |s.subs| && Arriving(e)
    requires PhaseOk(s.subs[e.i]) && FateOk(s.subs[e.i])
    ensures PhaseOk(SubStep(s, e).subs[e.i])
  {
    hide Affordable;
  }

  lemma SubPhaseOut(s: State, e: Event)
    requires Ready(s, e) && BySubmitter(e) && e.i < |s.subs| && !Arriving(e)
    requires PhaseOk(s.subs[e.i]) && DeliveryOk(s.subs[e.i])
    ensures PhaseOk(SubStep(s, e).subs[e.i])
  {
    hide RiskHash;
  }

  lemma SubChannel(s: State, e: Event)
    requires Ready(s, e) && BySubmitter(e)
    ensures e.i < |s.subs|
    ensures var (u, u') := (s.subs[e.i], SubStep(s, e).subs[e.i]);
      && u'.seed == u.seed && u'.w.sends == u.w.sends && u'.w.taken == u.w.taken && u'.w.owner == u.w.owner
      && (!e.ReceiveDigest? ==> u'.w.chan == u.w.chan)
      && (!e.ReceiveDigest? && !e.Respond? ==> !Done(u.pc) && !Done(u'.pc))
  {
    hide Affordable;
  }

  lemma SubDelivery(s: State, e: Event)
    requires Ready(s, e) && BySubmitter(e) && e.i < |s.subs|
    requires DeliveryOk(s.subs[e.i])
    ensures DeliveryOk(SubStep(s, e).subs[e.i])
  {
    hide Affordable, RiskHash;
    SubChannel(s, e);
    if !e.ReceiveDigest? && !e.Respond? {
      hide SubStep;
    }
  }

  lemma SubLocal(s: State, e: Event)
    requires Ready(s, e) && BySubmitter(e) && SubsOk(s)
    ensures e.i < |s.subs| && SubOk(SubStep(s, e).subs[e.i])
  {
    hide SubStep, RiskHash, Charge, DeliveryOk;
    SubFate(s, e);
    hide PhaseOk;
    if Arriving(e) {
      SubNetIn(s, e);
      SubPhaseIn(s, e);
    } else {
      SubNetOut(s, e);
      SubPhaseOut(s, e);
    }
    SubDelivery(s, e);
  }

  lemma WorkerFrame(s: State, e: Event)
    requires Ready(s, e) && ByWorkers(e)
    ensures e.j < |s.workers|
    ensures var t := WorkerStep(s, e);
      && t.workers == s.workers[e.j := t.workers[e.j]]
      && |t.subs| == |s.subs| && t.clock == s.clock && t.conf == s.conf
      && (!e.Pop? && !e.Deliver? ==> t.subs == s.subs && t.stack == s.stack && t.depth == s.depth && t.ctr == s.ctr)
      && (!e.Park? && !e.Unpark? ==> t.idle == s.idle)
  {
    hide RiskHash, Lanes;
  }

  // ---------------------------------------------------------------------------------
  // Submitters and counters
  // ---------------------------------------------------------------------------------

  lemma PopLocal(s: State, e: Event)
    requires e.Pop? && Ready(s, e) && SubsOk(s) && StackOk(s)
    ensures SubOk(PopTop(s, e.j).subs[s.stack[0]])
  {
    hide RiskHash, Charge;
    assert OnStack(s.subs[s.stack[0]]);
  }

  lemma DeliverLocal(u: Sub)
    requires SubOk(u) && u.w.taken && u.w.sends == 0
    ensures SubOk(Delivered(u))
  {
    hide RiskHash, Charge;
  }

  lemma WorkerSubs(s: State, e: Event)
    requires Ready(s, e) && ByWorkers(e) && SubsOk(s) && StackOk(s) && BatchesOk(s)
    ensures SubsOk(WorkerStep(s, e))
  {
    hide RiskHash, SubOk, StackOk, Judge, Handed, Lanes;
    if e.Pop? {
      PopLocal(s, e);
    } else if e.Deliver? {
      var w := s.workers[e.j];
      assert BatchOk(s.subs, e.j, Batch(w)) && Owed(s.subs[Batch(w)[0]]);
      DeliverLocal(s.subs[w.batch[0]]);
    } else {
      WorkerFrame(s, e);
    }
  }

  lemma KeepSubs(s: State, e: Event)
    requires Ready(s, e) && SubsOk(s) && StackOk(s) && BatchesOk(s)
    ensures SubsOk(Apply(s, e))
  {
    hide SubStep, WorkerStep, WorldStep, SubOk, StackOk, BatchesOk;
    if BySubmitter(e) {
      SubFrame(s, e);
      SubLocal(s, e);
    } else if ByWorkers(e) {
      WorkerSubs(s, e);
    } else {
      WorldLocal(s, e);
    }
  }

  lemma WorldLocal(s: State, e: Event)
    requires Ready(s, e) && !BySubmitter(e) && !ByWorkers(e) && SubsOk(s)
    ensures SubsOk(WorldStep(s, e))
  {
    hide RiskHash;
  }

  lemma WorkerAccounts(s: State, e: Event)
    requires Ready(s, e) && ByWorkers(e) && Accounts(s)
    ensures Accounts(WorkerStep(s, e))
  {
    hide RiskHash, Lanes;
    var t := WorkerStep(s, e);
    if e.Pop? {
      SetSums(s.subs, s.stack[0], t.subs[s.stack[0]]);
    } else if e.Deliver? {
      var i := s.workers[e.j].batch[0];
      SetSums(s.subs, i, t.subs[i]);
    } else {
      WorkerFrame(s, e);
    }
  }

  lemma KeepAccounts(s: State, e: Event)
    requires Ready(s, e) && Accounts(s)
    ensures Accounts(Apply(s, e))
  {
    hide RiskHash, SubStep, WorkerStep;
    var t := Apply(s, e);
    if BySubmitter(e) {
      SubFrame(s, e);
      SubCounts(s, e);
      SetSums(s.subs, e.i, t.subs[e.i]);
    } else if ByWorkers(e) {
      WorkerAccounts(s, e);
    } else if e.Arrive? {
      assert t.subs[..|s.subs|] == s.subs;
    } else if e.Cancel? {
      SetSums(s.subs, e.i, t.subs[e.i]);
    }
  }

  // ---------------------------------------------------------------------------------
  // The error budget
  // ---------------------------------------------------------------------------------

  /** The ways a step can move the counters: an answer, a charge outside the budget, a
      reservation on top of a check at most as favourable as the present, a release. */
  lemma CountersMove(c: Counters, c': Counters, bp: int)
    requires 0 <= bp <= 950 && CountersOk(c, bp)
    requires c' == c
          || (c'.respOK == c.respOK + 1 && c'.respErr == c.respErr && c'.unbudgeted == c.unbudgeted)
          || (c'.respOK == c.respOK && c'.respErr == c.respErr + 1 && c'.unbudgeted == c.unbudgeted + 1)
          || (c'.respOK == c.respOK && c'.respErr == c.respErr - 1 && c'.unbudgeted == c.unbudgeted)
          || (c'.respOK == c.respOK && c'.respErr == c.respErr + 1 && c'.unbudgeted == c.unbudgeted
              && exists ok :: ok <= c.respOK && Affordable(ok, c.respErr, bp))
    ensures CountersOk(c', bp)
  {
    if exists ok :: ok <= c.respOK && Affordable(ok, c.respErr, bp) {
      var ok :| ok <= c.respOK && Affordable(ok, c.respErr, bp);
      Reserve(ok, c.respOK, c.respErr, c.unbudgeted, bp);
    }
    Budget.Release(c.respErr - c.unbudgeted, c.respOK + c.respErr, bp);
    Grow(c.respOK + c.respErr, c.respOK + c.respErr + 1, bp);
    hide Affordable;
  }

  lemma SubBudget(s: State, e: Event)
    requires Ready(s, e) && BySubmitter(e) && BudgetOk(s)
    ensures CountersOk(SubStep(s, e).ctr, s.conf.Bp())
  {
    hide Within, Affordable, DeriveBudget;
    BudgetBelowGate(s.conf.gateEnv, s.conf.budgetEnv);
    assert Reserving(s, s.subs[e.i].pc);
    CountersMove(s.ctr, SubStep(s, e).ctr, s.conf.Bp());
  }

  lemma SubReserving(s: State, e: Event)
    requires Ready(s, e) && BySubmitter(e) && BudgetOk(s)
    ensures e.i < |s.subs| && Reserving(SubStep(s, e), SubStep(s, e).subs[e.i].pc)
    ensures s.ctr.respOK <= SubStep(s, e).ctr.respOK
  {
    hide Within, Affordable, DeriveBudget;
    assert Reserving(s, s.subs[e.i].pc);
  }

  lemma OtherBudget(s: State, e: Event)
    requires Ready(s, e) && !BySubmitter(e) && BudgetOk(s)
    ensures CountersOk(Apply(s, e).ctr, s.conf.Bp())
    ensures s.ctr.respOK <= Apply(s, e).ctr.respOK && s.conf == Apply(s, e).conf
  {
    hide Within, Affordable, DeriveBudget, RiskHash, Lanes;
    BudgetBelowGate(s.conf.gateEnv, s.conf.budgetEnv);
    if ByWorkers(e) && !e.Pop? && !e.Deliver? {
      WorkerFrame(s, e);
    }
    CountersMove(s.ctr, Apply(s, e).ctr, s.conf.Bp());
  }

  /** No event of a worker or of the world moves an existing submitter to another step. */
  lemma OtherPcs(s: State, e: Event)
    requires Ready(s, e) && !BySubmitter(e)
    ensures |s.subs| <= |Apply(s, e).subs| <= |s.subs| + 1
    ensures forall i | 0 <= i < |s.subs| :: Apply(s, e).subs[i].pc == s.subs[i].pc && Apply(s, e).subs[i].seed == s.subs[i].seed
    ensures |Apply(s, e).subs| > |s.subs| ==> e.Arrive? && Apply(s, e).subs[|s.subs|] == NewSub(e.seed)
  {
    hide RiskHash, Lanes;
    if ByWorkers(e) && !e.Pop? && !e.Deliver? {
      WorkerFrame(s, e);
    }
  }

  lemma KeepBudget(s: State, e: Event)
    requires Ready(s, e) && BudgetOk(s)
    ensures BudgetOk(Apply(s, e))
  {
    hide Within, Affordable, DeriveBudget, SubStep, WorkerStep, WorldStep;
    if BySubmitter(e) {
      SubFrame(s, e);
      SubBudget(s, e);
      SubReserving(s, e);
    } else {
      OtherBudget(s, e);
      OtherPcs(s, e);
    }
  }

  // ---------------------------------------------------------------------------------
  // Mutual exclusion
  // ---------------------------------------------------------------------------------

  /** Who holds the mutex after a thread goes from (not) holding it to (not) holding it. */
  predicate Handover(before: bool, after: bool, mu: Holder, mu': Holder, me: Holder) {
    if before == after then mu' == mu else if after then mu.Free? && mu' == me else mu' == Free
  }

  lemma SubMutex(s: State, e: Event)
    requires Ready(s, e) && BySubmitter(e)
    ensures e.i < |s.subs| && var t := SubStep(s, e);
            Handover(Holds(s.subs[e.i].pc), Holds(t.subs[e.i].pc), s.mu, t.mu, BySub(e.i))
  {
    hide Affordable;
  }

  lemma WorkerMutex(s: State, e: Event)
    requires Ready(s, e) && ByWorkers(e)
    ensures e.j < |s.workers| && var t := WorkerStep(s, e);
            Handover(s.workers[e.j].Taking?, t.workers[e.j].Taking?, s.mu, t.mu, ByWorker(e.j))
  {
    hide RiskHash, Lanes, Handed;
  }

  lemma WorldMutex(s: State, e: Event)
    requires Ready(s, e) && !BySubmitter(e) && !ByWorkers(e) && MutexOk(s)
    ensures MutexOk(WorldStep(s, e))
  {
  }

  lemma KeepMutex(s: State, e: Event)
    requires Ready(s, e) && MutexOk(s)
    ensures MutexOk(Apply(s, e))
  {
    hide SubStep, WorkerStep, Holds;
    if BySubmitter(e) {
      SubFrame(s, e);
      SubMutex(s, e);
    } else if ByWorkers(e) {
      OtherPcs(s, e);
      WorkerFrame(s, e);
      WorkerMutex(s, e);
    } else {
      WorldMutex(s, e);
    }
  }

  // ---------------------------------------------------------------------------------
  // The stack
  // ---------------------------------------------------------------------------------

  lemma SubStack(s: State, e: Event)
    requires Ready(s, e) && BySubmitter(e) && !e.PushWaiter?
    ensures e.i < |s.subs|
    ensures var (u, t) := (s.subs[e.i], SubStep(s, e));
      && t.stack == s.stack && t.depth == s.depth
      && OnStack(t.subs[e.i]) == OnStack(u) && t.subs[e.i].w.enqueued == u.w.enqueued
      && (t.mu.BySub? ==> s.mu.BySub? || s.depth < STACK_BACKSTOP)
  {
    hide Affordable;
  }

  /** Nothing that matters to the stack happens. */
  ghost predicate SameParking(subs: seq<Sub>, subs': seq<Sub>) {
    && |subs| <= |subs'|
    && (forall i | 0 <= i < |subs| :: OnStack(subs'[i]) == OnStack(subs[i]) && subs'[i].w.enqueued == subs[i].w.enqueued)
    && (forall i | |subs| <= i < |subs'| :: !OnStack(subs'[i]))
  }

  lemma StillParks(subs: seq<Sub>, subs': seq<Sub>, stack: seq<nat>, clock: int, clock': int)
    requires SameParking(subs, subs') && clock <= clock'
    requires Parks(subs, stack) && NewestFirst(subs, stack, clock)
    ensures Parks(subs', stack) && NewestFirst(subs', stack, clock')
  {
    hide OnStack;
  }

  lemma ParkOne(subs: seq<Sub>, stack: seq<nat>, clock: int, i: nat, u: Sub)
    requires i < |subs| && !OnStack(subs[i]) && OnStack(u) && u.w.enqueued == clock
    requires Parks(subs, stack) && NewestFirst(subs, stack, clock)
    ensures Parks(subs[i := u], [i] + stack) && NewestFirst(subs[i := u], [i] + stack, clock)
  {
    hide OnStack;
    var (subs', stack') := (subs[i := u], [i] + stack);
    assert i !in stack;
    assert forall k | 0 < k < |stack'| :: stack'[k] == stack[k - 1];
    forall x | 0 <= x < |subs'| && OnStack(subs'[x]) ensures x in stack' {
      assert x == i || x in stack;
    }
  }

  lemma UnparkTop(subs: seq<Sub>, stack: seq<nat>, clock: int, u: Sub)
    requires stack != [] && stack[0] < |subs| && !OnStack(u)
    requires Parks(subs, stack) && NewestFirst(subs, stack, clock)
    ensures Parks(subs[stack[0] := u], stack[1..]) && NewestFirst(subs[stack[0] := u], stack[1..], clock)
  {
    hide OnStack;
    var (subs', stack') := (subs[stack[0] := u], stack[1..]);
    forall x | 0 <= x < |subs'| && OnStack(subs'[x]) ensures x in stack' {
      assert x in stack && x != stack[0];
    }
  }

  lemma PushStack(s: State, e: Event)
    requires e.PushWaiter? && Ready(s, e)
    requires SubsOk(s) && MutexOk(s) && StackOk(s)
    ensures StackOk(SubStep(s, e))
  {
    hide RiskHash, Charge, DeliveryOk, Parks, NewestFirst;
    var (i, t) := (e.i, SubStep(s, e));
    assert SubOk(s.subs[i]) && Holds(s.subs[i].pc);
    ParkOne(s.subs, s.stack, s.clock, i, t.subs[i]);
  }

  lemma PopStack(s: State, e: Event)
    requires e.Pop? && Ready(s, e)
    requires MutexOk(s) && StackOk(s)
    ensures StackOk(PopTop(s, e.j))
  {
    hide Judge, Parks, NewestFirst;
    var t := PopTop(s, e.j);
    UnparkTop(s.subs, s.stack, s.clock, t.subs[s.stack[0]]);
  }

  lemma WorkerStack(s: State, e: Event)
    requires Ready(s, e) && ByWorkers(e) && !e.Pop?
    ensures var t := WorkerStep(s, e);
      && t.stack == s.stack && t.depth == s.depth && (t.mu.BySub? ==> s.mu.BySub?)
      && t.clock == s.clock && SameParking(s.subs, t.subs)
  {
    hide Lanes, RiskHash;
  }

  lemma WorldStack(s: State, e: Event)
    requires Ready(s, e) && !BySubmitter(e) && !ByWorkers(e)
    ensures var t := WorldStep(s, e);
      t.stack == s.stack && t.depth == s.depth && t.mu == s.mu && s.clock <= t.clock && SameParking(s.subs, t.subs)
  {
  }

  lemma KeepStack(s: State, e: Event)
    requires Ready(s, e) && SubsOk(s) && MutexOk(s) && StackOk(s)
    ensures StackOk(Apply(s, e))
  {
    hide SubStep, WorkerStep, WorldStep, SubsOk, MutexOk, Parks, NewestFirst, OnStack;
    var t := Apply(s, e);
    if e.PushWaiter? {
      PushStack(s, e);
    } else if e.Pop? {
      PopStack(s, e);
      PopIsPop(s, e);
    } else {
      if BySubmitter(e) {
        SubFrame(s, e);
        SubStack(s, e);
      } else if ByWorkers(e) {
        WorkerStack(s, e);
      } else {
        WorldStack(s, e);
      }
      StillParks(s.subs, t.subs, s.stack, s.clock, t.clock);
    }
  }

  lemma PopIsPop(s: State, e: Event)
    requires e.Pop? && Ready(s, e)
    ensures Apply(s, e) == PopTop(s, e.j)
  {
  }

  // ---------------------------------------------------------------------------------
  // Batches
  // ---------------------------------------------------------------------------------

  ghost predicate SameOwing(subs: seq<Sub>, subs': seq<Sub>) {
    && |subs| <= |subs'|
    && (forall i | 0 <= i < |subs| :: Owed(subs'[i]) == Owed(subs[i]) && subs'[i].w.owner == subs[i].w.owner)
    && (forall i | |subs| <= i < |subs'| :: !Owed(subs'[i]))
  }

  ghost predicate SameBatches(ws: seq<Worker>, ws': seq<Worker>) {
    |ws'| == |ws| && forall j | 0 <= j < |ws| :: Batch(ws'[j]) == Batch(ws[j])
  }

  lemma StillCarries(subs: seq<Sub>, subs': seq<Sub>, ws: seq<Worker>, ws': seq<Worker>)
    requires SameOwing(subs, subs') && SameBatches(ws, ws') && Carries(subs, ws)
    ensures Carries(subs', ws')
  {
    hide Owed, Batch;
    forall j | 0 <= j < |ws'| ensures BatchOk(subs', j, Batch(ws'[j])) {
      assert BatchOk(subs, j, Batch(ws[j]));
    }
  }

  lemma TakeOne(subs: seq<Sub>, ws: seq<Worker>, j: nat, i: nat, u: Sub, w: Worker)
    requires i < |subs| && j < |ws| && Carries(subs, ws)
    requires !Owed(subs[i]) && Owed(u) && u.w.owner == j && Batch(w) == Batch(ws[j]) + [i]
    ensures Carries(subs[i := u], ws[j := w])
  {
    hide Owed, Batch;
    var (subs', ws') := (subs[i := u], ws[j := w]);
    forall j' | 0 <= j' < |ws| ensures BatchOk(subs', j', Batch(ws'[j'])) {
      assert BatchOk(subs, j', Batch(ws[j']));
    }
    assert Batch(w)[|Batch(ws[j])|] == i;
    forall x | 0 <= x < |subs'| && Owed(subs'[x]) ensures subs'[x].w.owner < |ws'| && x in Batch(ws'[subs'[x].w.owner]) {
      assert x == i || x in Batch(ws[subs[x].w.owner]);
    }
  }

  lemma DeliverOne(subs: seq<Sub>, ws: seq<Worker>, j: nat, u: Sub, w: Worker)
    requires j < |ws| && Carries(subs, ws) && Batch(ws[j]) != [] && Batch(ws[j])[0] < |subs|
    requires !Owed(u) && Batch(w) == Batch(ws[j])[1..]
    ensures Carries(subs[Batch(ws[j])[0] := u], ws[j := w])
  {
    hide Owed, Batch;
    var i := Batch(ws[j])[0];
    var (subs', ws') := (subs[i := u], ws[j := w]);
    assert BatchOk(subs, j, Batch(ws[j])) && subs[i].w.owner == j;
    forall j' | 0 <= j' < |ws| ensures BatchOk(subs', j', Batch(ws'[j'])) {
      assert BatchOk(subs, j', Batch(ws[j']));
    }
    forall x | 0 <= x < |subs'| && Owed(subs'[x]) ensures subs'[x].w.owner < |ws'| && x in Batch(ws'[subs'[x].w.owner]) {
      assert x in Batch(ws[subs[x].w.owner]) && x != i;
    }
  }

  lemma PopBatches(s: State, e: Event)
    requires e.Pop? && Ready(s, e) && SubsOk(s) && StackOk(s) && Carries(s.subs, s.workers)
    ensures var t := PopTop(s, e.j); Carries(t.subs, t.workers)
  {
    hide Carries, RiskHash, Charge, PhaseOk;
    var t := PopTop(s, e.j);
    var (i, w) := (s.stack[0], s.workers[e.j]);
    assert OnStack(s.subs[i]) && SubOk(s.subs[i]);
    if Judge(s.subs[i], w.now, w.stale).Serve? {
      TakeOne(s.subs, s.workers, e.j, i, t.subs[i], t.workers[e.j]);
    } else {
      StillCarries(s.subs, t.subs, s.workers, t.workers);
    }
  }

  lemma DeliverBatches(s: State, e: Event)
    requires e.Deliver? && Ready(s, e) && Carries(s.subs, s.workers)
    ensures var t := WorkerStep(s, e); Carries(t.subs, t.workers)
  {
    hide Carries, RiskHash;
    var t := WorkerStep(s, e);
    var w := s.workers[e.j];
    assert Batch(w) == w.batch;
    DeliverOne(s.subs, s.workers, e.j, Delivered(s.subs[w.batch[0]]), t.workers[e.j]);
  }

  lemma WorkerBatch(s: State, e: Event)
    requires Ready(s, e) && ByWorkers(e) && !e.Pop? && !e.Deliver?
    ensures var t := WorkerStep(s, e); t.subs == s.subs && SameBatches(s.workers, t.workers)
  {
    hide Lanes;
  }

  lemma WorkerShape(s: State, e: Event)
    requires Ready(s, e) && ByWorkers(e) && e.j < |s.workers| && ShapeOk(s.workers[e.j])
    ensures ShapeOk(WorkerStep(s, e).workers[e.j])
  {
    hide Handed, RiskHash, Judge;
  }

  lemma SubOwing(s: State, e: Event)
    requires Ready(s, e) && BySubmitter(e)
    ensures SameOwing(s.subs, SubStep(s, e).subs)
  {
    hide SubStep;
    SubFrame(s, e);
    SubChannel(s, e);
  }

  lemma WorldOwing(s: State, e: Event)
    requires Ready(s, e) && !BySubmitter(e) && !ByWorkers(e)
    ensures WorldStep(s, e).workers == s.workers && WorldStep(s, e).idle == s.idle
    ensures SameOwing(s.subs, WorldStep(s, e).subs)
  {
  }

  lemma KeepCarries(s: State, e: Event)
    requires Ready(s, e) && SubsOk(s) && StackOk(s) && Carries(s.subs, s.workers)
    ensures var t := Apply(s, e); Carries(t.subs, t.workers)
  {
    hide SubStep, WorkerStep, WorldStep, SubsOk, StackOk, Carries, Owed, Batch;
    var t := Apply(s, e);
    if e.Pop? {
      PopBatches(s, e);
      PopIsPop(s, e);
    } else if e.Deliver? {
      DeliverBatches(s, e);
    } else {
      if BySubmitter(e) {
        SubFrame(s, e);
        SubOwing(s, e);
      } else if ByWorkers(e) {
        WorkerBatch(s, e);
      } else {
        WorldOwing(s, e);
      }
      StillCarries(s.subs, t.subs, s.workers, t.workers);
    }
  }

  lemma KeepShapes(s: State, e: Event)
    requires Ready(s, e) && forall j | 0 <= j < |s.workers| :: ShapeOk(s.workers[j])
    ensures forall j | 0 <= j < |Apply(s, e).workers| :: ShapeOk(Apply(s, e).workers[j])
  {
    hide SubStep, WorkerStep, WorldStep, ShapeOk;
    if BySubmitter(e) {
      SubFrame(s, e);
    } else if ByWorkers(e) {
      WorkerFrame(s, e);
      WorkerShape(s, e);
    } else {
      WorldOwing(s, e);
    }
  }

  // ---------------------------------------------------------------------------------
  // Wake-ups
  // ---------------------------------------------------------------------------------

  /** A worker that was going to look still is, unless it has just seen an empty stack; a
      token is only taken by a worker that wakes up. */
  lemma WorkerWakes(s: State, e: Event)
    requires Ready(s, e) && ByWorkers(e) && e.j < |s.workers| && ShapeOk(s.workers[e.j])
    ensures var t := WorkerStep(s, e);
      && (t.stack != [] ==> s.stack != [])
      && (Awake(s.workers[e.j]) ==> t.stack == [] || Awake(t.workers[e.j]))
      && (t.tokens >= s.tokens || Awake(t.workers[e.j]))
  {
    hide Lanes, Handed, RiskHash, Judge;
  }

  /** A push leaves its submitter about to send; the send leaves a token, even when the
      buffer was full. */
  lemma SubWakes(s: State, e: Event)
    requires Ready(s, e) && BySubmitter(e)
    ensures e.i < |s.subs| && var t := SubStep(s, e);
      && (t.stack == s.stack || t.subs[e.i].pc.Send?)
      && t.tokens >= s.tokens
      && (s.subs[e.i].pc.Send? ==> t.tokens > 0)
  {
    hide Affordable;
  }

  lemma WakeupAfterSub(s: State, e: Event)
    requires Ready(s, e) && BySubmitter(e) && WakeupOk(s)
    ensures WakeupOk(SubStep(s, e))
  {
    hide SubStep, Awake;
    var t := SubStep(s, e);
    SubFrame(s, e);
    SubWakes(s, e);
    if t.stack != [] && !t.subs[e.i].pc.Send? && t.tokens == 0 {
      if i :| 0 <= i < |s.subs| && s.subs[i].pc.Send? {
        assert t.subs[i].pc.Send?;
      } else {
        var j :| 0 <= j < |s.workers| && Awake(s.workers[j]);
        assert Awake(t.workers[j]);
      }
    }
  }

  lemma WakeupAfterWorker(s: State, e: Event)
    requires Ready(s, e) && ByWorkers(e) && WakeupOk(s) && forall j | 0 <= j < |s.workers| :: ShapeOk(s.workers[j])
    ensures WakeupOk(WorkerStep(s, e))
  {
    hide WorkerStep, ShapeOk, Awake;
    var t := WorkerStep(s, e);
    OtherPcs(s, e);
    WorkerFrame(s, e);
    WorkerWakes(s, e);
    if t.stack != [] && t.tokens == 0 && !Awake(t.workers[e.j]) {
      if i :| 0 <= i < |s.subs| && s.subs[i].pc.Send? {
        assert t.subs[i].pc.Send?;
      } else {
        var j :| 0 <= j < |s.workers| && Awake(s.workers[j]);
        assert Awake(t.workers[j]);
      }
    }
  }

  lemma WakeupAfterWorld(s: State, e: Event)
    requires Ready(s, e) && !BySubmitter(e) && !ByWorkers(e) && WakeupOk(s)
    ensures WakeupOk(WorldStep(s, e))
  {
    hide WorldStep, Awake;
    var t := WorldStep(s, e);
    OtherPcs(s, e);
    WorldOwing(s, e);
    WorldStack(s, e);
    WorldTokens(s, e);
    if t.stack != [] && t.tokens == 0 {
      if i :| 0 <= i < |s.subs| && s.subs[i].pc.Send? {
        assert t.subs[i].pc.Send?;
      } else {
        var j :| 0 <= j < |s.workers| && Awake(s.workers[j]);
        assert Awake(t.workers[j]);
      }
    }
  }

  lemma KeepWakeup(s: State, e: Event)
    requires Ready(s, e) && WakeupOk(s) && forall j | 0 <= j < |s.workers| :: ShapeOk(s.workers[j])
    ensures WakeupOk(Apply(s, e))
  {
    hide SubStep, WorkerStep, WorldStep, WakeupOk, ShapeOk;
    if BySubmitter(e) {
      WakeupAfterSub(s, e);
    } else if ByWorkers(e) {
      WakeupAfterWorker(s, e);
    } else {
      WakeupAfterWorld(s, e);
    }
  }

  lemma WorldTokens(s: State, e: Event)
    requires Ready(s, e) && !BySubmitter(e) && !ByWorkers(e)
    ensures WorldStep(s, e).tokens == s.tokens
  {
  }

  lemma WorkerIdle(s: State, e: Event)
    requires Ready(s, e) && ByWorkers(e)
    ensures e.j < |s.workers| && var t := WorkerStep(s, e);
      t.idle - s.idle == (if CountsIdle(t.workers[e.j]) then 1 else 0) - (if CountsIdle(s.workers[e.j]) then 1 else 0)
  {
    hide Lanes, Handed, RiskHash, Judge;
  }

  lemma KeepIdle(s: State, e: Event)
    requires Ready(s, e) && IdleOk(s)
    ensures IdleOk(Apply(s, e))
  {
    hide SubStep, WorkerStep, WorldStep;
    var t := Apply(s, e);
    if BySubmitter(e) {
      SubFrame(s, e);
    } else if ByWorkers(e) {
      WorkerFrame(s, e);
      WorkerIdle(s, e);
      SetIdle(s.workers, e.j, t.workers[e.j]);
    } else {
      WorldOwing(s, e);
    }
  }

  // ---------------------------------------------------------------------------------
  // The front door
  // ---------------------------------------------------------------------------------

  lemma SubFront(s: State, e: Event)
    requires Ready(s, e) && BySubmitter(e)
    ensures e.i < |s.subs| && var t := SubStep(s, e);
      && (e.PushWaiter? ==> Holds(s.subs[e.i].pc) && !AtFront(t.subs[e.i].pc))
      && (!e.PushWaiter? ==> t.depth == s.depth)
      && (AtFront(t.subs[e.i].pc) ==> AtFront(s.subs[e.i].pc) || (s.depth > 0 && s.idle == 0))
  {
    hide Affordable;
  }

  lemma WorkerFront(s: State, e: Event)
    requires Ready(s, e) && ByWorkers(e)
    ensures var t := WorkerStep(s, e);
      && (e.Pop? || e.Park? || e.Unpark? || (t.depth == s.depth && t.idle == s.idle))
      && (e.Pop? ==> e.j < |s.workers| && s.workers[e.j].Taking?)
      && (e.Park? || e.Unpark? ==> s.mu.Free?)
  {
    hide Lanes, Handed, Judge;
  }

  lemma KeepFront(s: State, e: Event)
    requires Ready(s, e) && MutexOk(s) && FrontOk(s)
    ensures FrontOk(Apply(s, e))
  {
    hide SubStep, WorkerStep, WorldStep, Holds, AtFront;
    if BySubmitter(e) {
      SubFrame(s, e);
      SubFront(s, e);
      FrontHolds(s);
    } else if ByWorkers(e) {
      OtherPcs(s, e);
      WorkerFront(s, e);
      WorkerFrame(s, e);
      FrontHolds(s);
    } else {
      OtherPcs(s, e);
      WorldOwing(s, e);
      WorldStack(s, e);
      NewNotFront();
    }
  }

  lemma FrontHolds(s: State)
    requires MutexOk(s)
    ensures forall i | 0 <= i < |s.subs| && AtFront(s.subs[i].pc) :: s.mu == BySub(i)
    ensures forall i | 0 <= i < |s.subs| && Holds(s.subs[i].pc) :: s.mu == BySub(i)
  {
  }

  lemma NewNotFront()
    ensures forall seed :: !AtFront(NewSub(seed).pc)
  {
  }

  // ---------------------------------------------------------------------------------
  // A take in progress
  // ---------------------------------------------------------------------------------

  ghost predicate SameTaken(subs: seq<Sub>, subs': seq<Sub>, ids: seq<nat>) {
    forall i | i in ids :: (i < |subs| && subs[i].w.taken) == (i < |subs'| && subs'[i].w.taken)
  }

  lemma {:induction false} StillTaken(subs: seq<Sub>, subs': seq<Sub>, ids: seq<nat>)
    requires SameTaken(subs, subs', ids)
    ensures TakenAmong(subs', ids) == TakenAmong(subs, ids)
  {
    if ids != [] {
      var n := |ids| - 1;
      assert ids[n] in ids;
      StillTaken(subs, subs', ids[..n]);
    }
  }

  lemma StillPrefix(subs: seq<Sub>, subs': seq<Sub>, stack: seq<nat>, want: nat, batch: seq<nat>, from: seq<nat>)
    requires TakePrefix(subs, stack, want, batch, from)
    requires SameTaken(subs, subs', from[..|from| - |stack|])
    ensures TakePrefix(subs', stack, want, batch, from)
  {
    hide TakenAmong;
    var n := |from| - |stack|;
    forall m | 0 <= m <= n ensures TakenAmong(subs', from[..m]) == TakenAmong(subs, from[..m]) {
      assert forall i | i in from[..m] :: i in from[..n];
      StillTaken(subs, subs', from[..m]);
    }
  }

  /** One pop moves the top of the stack to the popped part. */
  lemma PopPrefix(subs: seq<Sub>, u: Sub, stack: seq<nat>, want: nat, batch: seq<nat>, from: seq<nat>)
    requires TakePrefix(subs, stack, want, batch, from) && |batch| < want && stack != [] && stack[0] < |subs|
    ensures var subs' := subs[stack[0] := u];
            TakePrefix(subs', stack[1..], want, batch + (if u.w.taken then [stack[0]] else []), from)
  {
    hide TakenAmong;
    var (n, i, subs') := (|from| - |stack|, stack[0], subs[stack[0] := u]);
    assert i == from[n];
    forall m | 0 <= m <= n ensures TakenAmong(subs', from[..m]) == TakenAmong(subs, from[..m]) {
      assert i !in from[..m];
      StillTaken(subs, subs', from[..m]);
    }
    assert stack[1..] == from[n + 1..];
    TakenNext(subs', from, n);
  }

  lemma TakenNext(subs: seq<Sub>, from: seq<nat>, n: nat)
    requires n < |from|
    ensures TakenAmong(subs, from[..n + 1])
         == TakenAmong(subs, from[..n]) + if from[n] < |subs| && subs[from[n]].w.taken then [from[n]] else []
  {
    assert from[..n + 1][..n] == from[..n];
  }

  lemma StartPrefix(subs: seq<Sub>, stack: seq<nat>, want: nat)
    requires forall k, l | 0 <= k < l < |stack| :: stack[k] != stack[l]
    ensures TakePrefix(subs, stack, want, [], stack)
  {
    assert stack[..0] == [] && stack[0..] == stack;
  }

  lemma PopTake(s: State, e: Event)
    requires e.Pop? && Ready(s, e) && MutexOk(s) && StackOk(s) && TakeOk(s)
    ensures TakeOk(PopTop(s, e.j))
  {
    hide TakePrefix, Judge, Holds;
    var t := PopTop(s, e.j);
    var (w, i) := (s.workers[e.j], s.stack[0]);
    assert OnStack(s.subs[i]);
    PopPrefix(s.subs, t.subs[i], s.stack, w.want, w.batch, w.from);
    var w' := t.workers[e.j];
    assert t.subs == s.subs[i := t.subs[i]] && t.stack == s.stack[1..];
    assert w'.Taking? && w'.want == w.want && w'.from == w.from;
    assert w'.batch == w.batch + if t.subs[i].w.taken then [i] else [];
    forall j | 0 <= j < |t.workers| && t.workers[j].Taking? ensures j == e.j {
      assert s.workers[j].Taking?;
    }
  }

  /** Nobody but the taker changes the stack or marks a waiter taken while the take lasts. */
  lemma OthersTake(s: State, e: Event)
    requires Ready(s, e) && !e.Pop? && MutexOk(s) && (exists j :: 0 <= j < |s.workers| && s.workers[j].Taking?)
    ensures Apply(s, e).stack == s.stack && forall ids :: SameTaken(s.subs, Apply(s, e).subs, ids)
  {
    hide SubStep, WorkerStep, WorldStep, Holds;
    if BySubmitter(e) {
      SubFrame(s, e);
      SubChannel(s, e);
      if e.PushWaiter? {
        PushHolds(s, e);
      } else {
        SubStack(s, e);
      }
    } else if ByWorkers(e) {
      WorkerStack(s, e);
      WorkerTaken(s, e);
    } else {
      WorldStack(s, e);
      WorldTaken(s, e);
    }
  }

  lemma PushHolds(s: State, e: Event)
    requires e.PushWaiter? && Ready(s, e) && MutexOk(s)
    ensures forall j | 0 <= j < |s.workers| :: !s.workers[j].Taking?
  {
  }

  lemma WorkerTaken(s: State, e: Event)
    requires Ready(s, e) && ByWorkers(e) && !e.Pop?
    ensures var t := WorkerStep(s, e);
      |t.subs| == |s.subs| && forall i | 0 <= i < |s.subs| :: t.subs[i].w.taken == s.subs[i].w.taken
  {
    hide Lanes, RiskHash;
  }

  lemma WorldTaken(s: State, e: Event)
    requires Ready(s, e) && !BySubmitter(e) && !ByWorkers(e)
    ensures var t := WorldStep(s, e);
      && |s.subs| <= |t.subs|
      && (forall i | 0 <= i < |s.subs| :: t.subs[i].w.taken == s.subs[i].w.taken)
      && (forall i | |s.subs| <= i < |t.subs| :: !t.subs[i].w.taken)
  {
  }

  lemma WorkerTakes(s: State, e: Event)
    requires Ready(s, e) && ByWorkers(e) && !e.Pop?
    ensures e.j < |s.workers| && var w' := WorkerStep(s, e).workers[e.j];
      w'.Taking? ==> e.StartTake? && s.mu.Free? && w'.batch == [] && w'.from == s.stack == WorkerStep(s, e).stack
  {
    hide Lanes, Handed, RiskHash, Judge;
  }

  lemma KeepTake(s: State, e: Event)
    requires Ready(s, e) && MutexOk(s) && StackOk(s) && TakeOk(s)
    ensures TakeOk(Apply(s, e))
  {
    hide SubStep, WorkerStep, WorldStep, TakePrefix, OnStack, SameTaken;
    var t := Apply(s, e);
    if e.Pop? {
      PopTake(s, e);
      PopIsPop(s, e);
    } else {
      if exists j :: 0 <= j < |s.workers| && s.workers[j].Taking? {
        OthersTake(s, e);
      }
      forall j | 0 <= j < |t.workers| && t.workers[j].Taking?
        ensures TakePrefix(t.subs, t.stack, t.workers[j].want, t.workers[j].batch, t.workers[j].from)
      {
        KeepOneTake(s, e, j);
      }
    }
  }

  lemma KeepOneTake(s: State, e: Event, j: nat)
    requires Ready(s, e) && !e.Pop? && MutexOk(s) && StackOk(s) && TakeOk(s)
    requires j < |Apply(s, e).workers| && Apply(s, e).workers[j].Taking?
    ensures var t := Apply(s, e); TakePrefix(t.subs, t.stack, t.workers[j].want, t.workers[j].batch, t.workers[j].from)
  {
    hide SubStep, WorkerStep, WorldStep, TakePrefix, OnStack, SameTaken;
    var t := Apply(s, e);
    if ByWorkers(e) && j == e.j {
      WorkerTakes(s, e);
      StartPrefix(t.subs, t.stack, t.workers[j].want);
    } else {
      if BySubmitter(e) {
        SubFrame(s, e);
      } else if ByWorkers(e) {
        WorkerFrame(s, e);
      } else {
        WorldOwing(s, e);
      }
      var w := s.workers[j];
      assert w == t.workers[j];
      OthersTake(s, e);
      PrefixFits(s.subs, s.stack, w.want, w.batch, w.from);
      StillPrefix(s.subs, t.subs, s.stack, w.want, w.batch, w.from);
    }
  }

  lemma SkipsKept(s: State, e: Event)
    requires Ready(s, e) && !e.Pop?
    ensures Apply(s, e).ctr.staleSkips == s.ctr.staleSkips
  {
    hide SubStep, RiskHash, Lanes, Handed;
    if BySubmitter(e) {
      SubCounts(s, e);
    }
  }

  lemma NextVerdict(from: seq<nat>, seen: seq<Verdict>, v: Verdict)
    requires |seen| < |from|
    ensures Chosen(from[..|seen| + 1], seen + [v]) == Chosen(from[..|seen|], seen) + if v.Serve? then [from[|seen|]] else []
    ensures Stales(seen + [v]) == Stales(seen) + if v.Stale? then 1 else 0
  {
    var n := |seen|;
    assert from[..n + 1][..n] == from[..n] && (seen + [v])[..n] == seen;
  }

  /** What one pop does to its worker. */
  lemma PopWorker(s: State, e: Event)
    requires e.Pop? && Ready(s, e)
    ensures var (t, w, i) := (PopTop(s, e.j), s.workers[e.j], s.stack[0]);
      var v := Judge(s.subs[i], w.now, w.stale);
      && t.workers == s.workers[e.j := w.(seen := w.seen + [v], batch := if v.Serve? then w.batch + [i] else w.batch)]
      && t.stack == s.stack[1..]
      && t.ctr.staleSkips == s.ctr.staleSkips + if v.Stale? then 1 else 0
  {
    hide Judge;
  }

  lemma PopVerdicts(s: State, e: Event)
    requires e.Pop? && Ready(s, e) && MutexOk(s) && TakeOk(s) && VerdictsOk(s)
    ensures VerdictsOk(PopTop(s, e.j))
  {
    hide PopTop, Judge, Chosen, Stales, TakenAmong, Holds;
    var (t, w) := (PopTop(s, e.j), s.workers[e.j]);
    PopWorker(s, e);
    assert TakePrefix(s.subs, s.stack, w.want, w.batch, w.from) && TakeVerdicts(s.stack, s.ctr.staleSkips, w);
    assert s.stack[0] == w.from[|w.seen|];
    NextVerdict(w.from, w.seen, Judge(s.subs[s.stack[0]], w.now, w.stale));
    forall j | 0 <= j < |t.workers| && t.workers[j].Taking? ensures j == e.j {
      assert s.workers[j].Taking?;
    }
  }

  lemma StartVerdicts(s: State, e: Event)
    requires Ready(s, e) && ByWorkers(e) && !e.Pop?
    ensures e.j < |s.workers| && var (t, w) := (WorkerStep(s, e), WorkerStep(s, e).workers[e.j]);
      w.Taking? ==> TakeVerdicts(t.stack, t.ctr.staleSkips, w)
  {
    hide Lanes, Handed, RiskHash, PopTop, Judge, SendDigest;
    if e.Deliver? {
      DeliverRuns(s, e);
    }
  }

  lemma DeliverRuns(s: State, e: Event)
    requires e.Deliver? && Ready(s, e)
    ensures e.j < |s.workers| && !SendDigest(s, e.j, RiskHash(s.subs[s.workers[e.j].batch[0]].seed)).workers[e.j].Taking?
  {
    hide RiskHash;
  }

  lemma KeepVerdicts(s: State, e: Event)
    requires Ready(s, e) && MutexOk(s) && TakeOk(s) && VerdictsOk(s)
    ensures VerdictsOk(Apply(s, e))
  {
    hide SubStep, WorkerStep, WorldStep, TakeVerdicts, TakeOk, SameTaken;
    var t := Apply(s, e);
    if e.Pop? {
      PopVerdicts(s, e);
      PopIsPop(s, e);
    } else {
      SkipsKept(s, e);
      if exists j :: 0 <= j < |s.workers| && s.workers[j].Taking? {
        OthersTake(s, e);
      }
      if BySubmitter(e) {
        SubFrame(s, e);
      } else if ByWorkers(e) {
        WorkerFrame(s, e);
        StartVerdicts(s, e);
      } else {
        WorldOwing(s, e);
      }
    }
  }

  lemma PrefixFits(subs: seq<Sub>, stack: seq<nat>, want: nat, batch: seq<nat>, from: seq<nat>)
    requires TakePrefix(subs, stack, want, batch, from)
    ensures |stack| <= |from|
  {
  }

  // ---------------------------------------------------------------------------------
  // The invariant of every run
  // ---------------------------------------------------------------------------------

  lemma KeepInv(s: State, e: Event)
    requires Inv(s) && Ready(s, e)
    ensures Inv(Apply(s, e))
  {
    hide Apply, SubsOk, Accounts, BudgetOk, MutexOk, FrontOk, StackOk, TakeOk, VerdictsOk, Carries, ShapeOk, WakeupOk, IdleOk;
    KeepSubs(s, e);
    KeepAccounts(s, e);
    KeepBudget(s, e);
    KeepMutex(s, e);
    KeepFront(s, e);
    KeepStack(s, e);
    KeepTake(s, e);
    KeepVerdicts(s, e);
    KeepCarries(s, e);
    KeepShapes(s, e);
    KeepWakeup(s, e);
    KeepIdle(s, e);
  }

  lemma {:induction false} NobodyIdle(ws: seq<Worker>)
    requires forall j | 0 <= j < |ws| :: ws[j].Top?
    ensures IdleCount(ws) == 0
  {
    if ws != [] {
      NobodyIdle(ws[..|ws| - 1]);
    }
  }

  lemma InitCounters(s: State)
    requires Init(s)
    ensures SubsOk(s) && Accounts(s) && BudgetOk(s) && IdleOk(s)
  {
    hide DeriveBudget;
    NobodyIdle(s.workers);
    BudgetBelowGate(s.conf.gateEnv, s.conf.budgetEnv);
  }

  lemma InitStack(s: State)
    requires Init(s)
    ensures MutexOk(s) && FrontOk(s) && StackOk(s) && TakeOk(s) && VerdictsOk(s) && WakeupOk(s)
  {
  }

  lemma InitBatches(s: State)
    requires Init(s)
    ensures BatchesOk(s)
  {
    forall j | 0 <= j < |s.workers| ensures BatchOk(s.subs, j, Batch(s.workers[j])) && ShapeOk(s.workers[j]) {
    }
  }

  lemma InitInv(s: State)
    requires Init(s)
    ensures Inv(s)
  {
    hide Init, SubsOk, Accounts, BudgetOk, IdleOk, MutexOk, FrontOk, StackOk, TakeOk, VerdictsOk, WakeupOk, BatchesOk;
    InitCounters(s);
    InitStack(s);
    InitBatches(s);
  }

  /** The invariant holds in every state of every run. */
  lemma {:induction false} Reachable(ss: seq<State>, es: seq<Event>, k: nat)
    requires IsRun(ss, es) && k < |ss|
    ensures Inv(ss[k])
  {
    hide Inv, Apply, Ready;
    if k == 0 {
      InitInv(ss[0]);
    } else {
      Reachable(ss, es, k - 1);
      KeepInv(ss[k - 1], es[k - 1]);
    }
  }
}
