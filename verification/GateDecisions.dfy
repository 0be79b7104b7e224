/** What the gate decides, and when, in terms of counters, clocks and flags alone: who is
    turned away and why, what a reservation needs, what a pop does with its waiter, how many
    waiters a worker asks for. */
module GateDecisions {
  import opened Budget
  import opened Sha256
  import opened Gate
  import opened GateInv
  import opened GateSafety

  // ---------------------------------------------------------------------------------
  // The front door
  // ---------------------------------------------------------------------------------

  lemma EnterStep(s: State, i: nat)
    requires Ready(s, EnterGate(i))
    ensures i < |Apply(s, EnterGate(i)).subs|
    ensures var (pc, t) := (Apply(s, EnterGate(i)).subs[i].pc, Apply(s, EnterGate(i)));
      && (pc.Backstop? <==> s.depth >= 2048)
      && (pc == LoadOk(Front) <==> 0 < s.depth < 2048 && s.idle == 0)
      && (pc.Push? <==> s.depth < 2048 && (s.depth <= 0 || s.idle != 0))
      && t.ctr == s.ctr && t.stack == s.stack && t.mu == if pc.Backstop? then Free else BySub(i)
  {
  }

  /** What happens to a request at the door: it is turned away exactly when 2048 waiters are
      parked; otherwise it tries to reserve an error exactly when someone is parked and every
      worker is busy, and joins the stack exactly when nobody is or some worker is not. */
  lemma EntersIff(ss: seq<State>, es: seq<Event>, k: nat)
    requires IsRun(ss, es) && k < |es| && es[k].EnterGate?
    ensures k + 1 < |ss| && es[k].i < |ss[k + 1].subs|
    ensures var (s, pc) := (ss[k], ss[k + 1].subs[es[k].i].pc);
      var busy := forall j | 0 <= j < |s.workers| :: !s.workers[j].Parked? && !s.workers[j].Woken?;
      && (pc.Backstop? <==> |s.stack| == 2048)
      && (pc == LoadOk(Front) <==> 0 < |s.stack| < 2048 && busy)
      && (pc.Push? <==> |s.stack| == 0 || (|s.stack| < 2048 && !busy))
  {
    hide IsRun, Apply;
    RunStep(ss, es, k);
    EnterStep(ss[k], es[k].i);
    StackShape(ss, es, k);
    IdleIsExact(ss, es, k);
    assert forall j | 0 <= j < |ss[k].workers| :: CountsIdle(ss[k].workers[j]) <==> ss[k].workers[j].Parked? || ss[k].workers[j].Woken?;
  }

  // ---------------------------------------------------------------------------------
  // Reservations
  // ---------------------------------------------------------------------------------

  /** s with submitter i at pc and d added to respErr and to what i has charged; nothing else. */
  predicate OnlyMoves(s: State, t: State, i: nat, pc: SubPc, d: int)
    requires i < |s.subs|
  {
    t == s.(subs := s.subs[i := s.subs[i].(pc := pc, net := s.subs[i].net + d)], ctr := s.ctr.(respErr := s.ctr.respErr + d))
  }

  /** The check refuses exactly when fewer than 500 responses have been counted or one more
      error would exceed the budget; a refused request goes on to park, or stays parked, and
      nothing else changes. */
  lemma CheckStep(s: State, i: nat)
    requires Ready(s, ReadErr(i))
    ensures var (t, pc, err) := (Apply(s, ReadErr(i)), s.subs[i].pc, s.ctr.respErr);
      var refused := pc.ok + err < 500 || (err + 1) * 10000 > (pc.ok + err) * s.conf.Bp();
      OnlyMoves(s, t, i, if refused then (if pc.door.Front? then Push else Wait) else Cas(pc.door, pc.ok, err), 0)
  {
    var u := s.subs[i];
    assert u.net + 0 == u.net && s.ctr.(respErr := s.ctr.respErr + 0) == s.ctr;
  }

  /** The swap succeeds exactly when no other charge or release came between, and then charges
      one error; otherwise it tries again with the same count of successes. */
  lemma SwapStep(s: State, i: nat)
    requires Ready(s, TryCas(i))
    ensures var (t, pc) := (Apply(s, TryCas(i)), s.subs[i].pc);
      if s.ctr.respErr == pc.err then OnlyMoves(s, t, i, if pc.door.Front? then FrontShed else Leave(true), 1)
      else OnlyMoves(s, t, i, LoadErr(pc.door, pc.ok), 0)
  {
    var u := s.subs[i];
    assert u.net + 0 == u.net && s.ctr.(respErr := s.ctr.respErr + 0) == s.ctr;
  }

  lemma LoadStep(s: State, i: nat)
    requires Ready(s, ReadOk(i))
    ensures OnlyMoves(s, Apply(s, ReadOk(i)), i, LoadErr(s.subs[i].pc.door, s.ctr.respOK), 0)
  {
    var u := s.subs[i];
    assert u.net + 0 == u.net && s.ctr.(respErr := s.ctr.respErr + 0) == s.ctr;
  }

  /** May an error be charged?  From 500 responses on, while the budget has room for one more
      error in what has been counted so far. */
  predicate Granted(c: Counters, bp: int) {
    c.respOK + c.respErr >= 500 && (c.respErr + 1) * 10000 <= (c.respOK + c.respErr) * bp
  }

  /** shedReserveError without interference: it must succeed, charging one error, when one may
      be charged, and it must fail, changing nothing, when not. */
  lemma ReserveAlone(s: State, i: nat) returns (es: seq<Event>, t: State)
    requires i < |s.subs| && s.subs[i].pc.LoadOk?
    ensures Leads(s, es, t)
    ensures var door := s.subs[i].pc.door;
      && (Granted(s.ctr, s.conf.Bp()) ==> OnlyMoves(s, t, i, if door.Front? then FrontShed else Leave(true), 1))
      && (!Granted(s.ctr, s.conf.Bp()) ==> OnlyMoves(s, t, i, if door.Front? then Push else Wait, 0))
  {
    hide Apply, Leads, Gate.Config.Bp;
    LeadsNowhere(s);
    LoadStep(s, i);
    LeadsOneMore(s, [], s, ReadOk(i));
    t := Apply(s, ReadOk(i));
    es := [] + [ReadOk(i)];
    CheckStep(t, i);
    LeadsOneMore(s, es, t, ReadErr(i));
    es, t := es + [ReadErr(i)], Apply(t, ReadErr(i));
    if t.subs[i].pc.Cas? {
      SwapStep(t, i);
      LeadsOneMore(s, es, t, TryCas(i));
      es, t := es + [TryCas(i)], Apply(t, TryCas(i));
    }
  }

  // ---------------------------------------------------------------------------------
  // Who is refused
  // ---------------------------------------------------------------------------------

  /** A swap of request i that succeeded among the first k events. */
  ghost predicate Reserved(ss: seq<State>, es: seq<Event>, k: nat, i: nat)
    requires IsRun(ss, es) && k < |ss|
  {
    exists p | 0 <= p < k :: es[p] == TryCas(i) && ss[p + 1].ctr.respErr == ss[p].ctr.respErr + 1
  }

  /** Request i found 2048 waiters parked when it came in. */
  ghost predicate TurnedAway(ss: seq<State>, es: seq<Event>, k: nat, i: nat)
    requires IsRun(ss, es) && k < |ss|
  {
    exists p | 0 <= p < k :: es[p] == EnterGate(i) && |ss[p].stack| == 2048
  }

  /** Why a request is where it is. */
  predicate Caused(u: Sub, reserved: bool, turnedAway: bool) {
    match u.pc
    case FrontShed => reserved
    case Leave(r) => if r then reserved else u.cancelled
    case Release => reserved
    case Backstop => turnedAway
    case Disconnect => u.cancelled && u.w.pushed
    case Shed => reserved || (if u.w.pushed then u.cancelled else turnedAway)
    case _ => true
  }

  /** The step of another thread, or of the world. */
  lemma OtherStep(s: State, e: Event, i: nat)
    requires Ready(s, e) && i < |s.subs| && (BySubmitter(e) ==> e.i != i)
    ensures i < |Apply(s, e).subs| && var (u, u') := (s.subs[i], Apply(s, e).subs[i]);
      u'.pc == u.pc && (u.cancelled ==> u'.cancelled) && u'.w.pushed == u.w.pushed
  {
    hide RiskHash, Lanes, Judge, Affordable;
    if BySubmitter(e) {
      hide SubStep;
      SubFrame(s, e);
    } else if ByWorkers(e) && !e.Pop? && !e.Deliver? {
      hide WorkerStep;
      WorkerFrame(s, e);
    }
  }

  /** The steps that can end in a refusal. */
  predicate Refusing(e: Event) {
    e.EnterGate? || e.TryCas? || e.UnlockShed? || e.LeaveGate? || e.ChargeBackstop? || e.ChargeDisconnect?
  }

  /** A step of its own. */
  lemma RefusingStep(s: State, e: Event, reserved: bool, turnedAway: bool)
    requires Ready(s, e) && BySubmitter(e) && e.i < |s.subs| && Refusing(e)
    requires PhaseOk(s.subs[e.i]) && Caused(s.subs[e.i], reserved, turnedAway)
    ensures e.i < |SubStep(s, e).subs|
    ensures var t := SubStep(s, e);
      Caused(t.subs[e.i], reserved || (e.TryCas? && t.ctr.respErr == s.ctr.respErr + 1), turnedAway || (e.EnterGate? && s.depth >= 2048))
  {
    hide Affordable, RiskHash;
  }

  lemma OtherOwnStep(s: State, e: Event, reserved: bool, turnedAway: bool)
    requires Ready(s, e) && BySubmitter(e) && e.i < |s.subs| && !Refusing(e)
    requires PhaseOk(s.subs[e.i]) && Caused(s.subs[e.i], reserved, turnedAway)
    ensures e.i < |SubStep(s, e).subs|
    ensures var t := SubStep(s, e);
      Caused(t.subs[e.i], reserved || (e.TryCas? && t.ctr.respErr == s.ctr.respErr + 1), turnedAway || (e.EnterGate? && s.depth >= 2048))
  {
    hide Affordable, RiskHash;
  }

  lemma {:induction false} WhyThere(ss: seq<State>, es: seq<Event>, k: nat, i: nat)
    requires IsRun(ss, es) && k < |ss| && i < |ss[k].subs|
    ensures Caused(ss[k].subs[i], Reserved(ss, es, k, i), TurnedAway(ss, es, k, i))
  {
    hide IsRun, Init, Apply, Ready, SubOk, PhaseOk;
    if k == 0 {
      NobodyYet(ss, es);
    } else {
      RunLength(ss, es);
      RunStep(ss, es, k - 1);
      var (s, e) := (ss[k - 1], es[k - 1]);
      if i >= |s.subs| {
        JustArrived(s, e, i);
      } else {
        WhyThere(ss, es, k - 1, i);
        if BySubmitter(e) && e.i == i {
          SubHolds(ss, es, k - 1, i);
          Phase(s.subs[i]);
          StackShape(ss, es, k - 1);
          ApplySub(s, e);
          if Refusing(e) {
            RefusingStep(s, e, Reserved(ss, es, k - 1, i), TurnedAway(ss, es, k - 1, i));
          } else {
            OtherOwnStep(s, e, Reserved(ss, es, k - 1, i), TurnedAway(ss, es, k - 1, i));
          }
        } else {
          OtherStep(s, e, i);
        }
        assert Reserved(ss, es, k - 1, i) ==> Reserved(ss, es, k, i);
        assert TurnedAway(ss, es, k - 1, i) ==> TurnedAway(ss, es, k, i);
        if e == TryCas(i) && ss[k].ctr.respErr == s.ctr.respErr + 1 {
          assert Reserved(ss, es, k, i);
        }
        if e == EnterGate(i) && |s.stack| == 2048 {
          assert TurnedAway(ss, es, k, i);
        }
      }
    }
  }

  lemma Phase(u: Sub)
    requires SubOk(u)
    ensures PhaseOk(u)
  {
  }

  lemma NobodyYet(ss: seq<State>, es: seq<Event>)
    requires IsRun(ss, es)
    ensures ss[0].subs == []
  {
  }

  lemma JustArrived(s: State, e: Event, i: nat)
    requires Ready(s, e) && |s.subs| <= i < |Apply(s, e).subs|
    ensures Apply(s, e).subs[i].pc.Enter?
  {
    hide Apply;
    if BySubmitter(e) {
      ApplySub(s, e);
      hide SubStep;
      SubFrame(s, e);
    } else {
      OtherPcs(s, e);
    }
  }

  lemma ApplySub(s: State, e: Event)
    requires Ready(s, e) && BySubmitter(e)
    ensures Apply(s, e) == SubStep(s, e)
  {
  }

  /** The context of request i was cancelled among the first k events. */
  ghost predicate WasCancelled(ss: seq<State>, es: seq<Event>, k: nat, i: nat)
    requires IsRun(ss, es) && k < |ss|
  {
    exists p | 0 <= p < k :: es[p] == Cancel(i)
  }

  lemma CancelStep(s: State, e: Event, i: nat)
    requires Ready(s, e) && i < |Apply(s, e).subs|
    ensures Apply(s, e).subs[i].cancelled <==> e == Cancel(i) || (i < |s.subs| && s.subs[i].cancelled)
  {
    hide RiskHash, Lanes, Judge, Affordable;
    if BySubmitter(e) {
      ApplySub(s, e);
      hide Apply;
      CancelSub(s, e);
    } else if ByWorkers(e) {
      hide SubStep, WorldStep;
      if !e.Pop? && !e.Deliver? {
        hide WorkerStep;
        WorkerFrame(s, e);
      }
    } else {
      hide SubStep, WorkerStep;
    }
  }

  lemma CancelSub(s: State, e: Event)
    requires Ready(s, e) && BySubmitter(e)
    ensures |SubStep(s, e).subs| == |s.subs| && forall i | 0 <= i < |s.subs| :: SubStep(s, e).subs[i].cancelled == s.subs[i].cancelled
  {
    hide RiskHash, Affordable;
  }

  /** A request counts as cancelled exactly when its own context was. */
  lemma {:induction false} CancelledIff(ss: seq<State>, es: seq<Event>, k: nat, i: nat)
    requires IsRun(ss, es) && k < |ss| && i < |ss[k].subs|
    ensures ss[k].subs[i].cancelled <==> WasCancelled(ss, es, k, i)
  {
    hide IsRun, Init, Apply, Ready;
    if k == 0 {
      NobodyYet(ss, es);
    } else {
      RunLength(ss, es);
      RunStep(ss, es, k - 1);
      var (s, e) := (ss[k - 1], es[k - 1]);
      CancelStep(s, e, i);
      if i < |s.subs| {
        CancelledIff(ss, es, k - 1, i);
      } else {
        NotBefore(ss, es, k - 1, i);
      }
      assert WasCancelled(ss, es, k - 1, i) ==> WasCancelled(ss, es, k, i);
    }
  }

  /** Nothing is cancelled before it arrives. */
  lemma {:induction false} NotBefore(ss: seq<State>, es: seq<Event>, k: nat, i: nat)
    requires IsRun(ss, es) && k < |ss| && i >= |ss[k].subs|
    ensures !WasCancelled(ss, es, k, i)
  {
    hide IsRun, Init, Apply, Ready;
    if k > 0 {
      RunLength(ss, es);
      RunStep(ss, es, k - 1);
      SubsGrow(ss[k - 1], es[k - 1]);
      NotBefore(ss, es, k - 1, i);
      CancelExists(ss[k - 1], es[k - 1], i);
    }
  }

  lemma CancelExists(s: State, e: Event, i: nat)
    requires Ready(s, e)
    ensures e == Cancel(i) ==> i < |s.subs|
  {
  }

  lemma SubsGrow(s: State, e: Event)
    requires Ready(s, e)
    ensures |s.subs| <= |Apply(s, e).subs|
  {
    hide Apply;
    if BySubmitter(e) {
      ApplySub(s, e);
      hide SubStep;
      SubFrame(s, e);
    } else {
      OtherPcs(s, e);
    }
  }

  /** A parked request is refused only after a reservation of its own, or because its context
      was cancelled; one that never parked only after a reservation of its own, or because 2048
      waiters were parked when it came in. */
  lemma RefusedOnlyIf(ss: seq<State>, es: seq<Event>, k: nat, i: nat)
    requires IsRun(ss, es) && k < |ss| && i < |ss[k].subs| && ss[k].subs[i].pc.Shed?
    ensures Reserved(ss, es, k, i)
         || (if ss[k].subs[i].w.pushed then ss[k].subs[i].cancelled else TurnedAway(ss, es, k, i))
  {
    hide IsRun, Reserved, TurnedAway;
    WhyThere(ss, es, k, i);
  }

  // ---------------------------------------------------------------------------------
  // Wake-ups
  // ---------------------------------------------------------------------------------

  /** The wake channel holds at most sixteen tokens; a send adds one unless it is full, and
      only a worker that wakes up takes one out. */
  lemma {:induction false} TokensFit(ss: seq<State>, es: seq<Event>, k: nat)
    requires IsRun(ss, es) && k < |ss|
    ensures 0 <= ss[k].tokens <= 16
    ensures k > 0 ==> k - 1 < |es| && var (m, n) := (ss[k - 1].tokens, ss[k].tokens);
      match es[k - 1]
      case SendToken(_) => n == if m == 16 then 16 else m + 1
      case Wake(_) => n == m - 1
      case _ => n == m
  {
    hide IsRun, Apply;
    if k == 0 {
      NoTokens(ss, es);
    } else {
      RunLength(ss, es);
      TokensFit(ss, es, k - 1);
      RunStep(ss, es, k - 1);
      TokenStep(ss[k - 1], es[k - 1]);
    }
  }

  lemma NoTokens(ss: seq<State>, es: seq<Event>)
    requires IsRun(ss, es)
    ensures ss[0].tokens == 0
  {
  }

  lemma TokenStep(s: State, e: Event)
    requires Ready(s, e) && s.tokens <= 16
    ensures var n := Apply(s, e).tokens;
      match e
      case SendToken(_) => n == if s.tokens == 16 then 16 else s.tokens + 1
      case Wake(_) => n == s.tokens - 1
      case _ => n == s.tokens
  {
    hide Affordable, RiskHash, Lanes, Judge;
  }

  // ---------------------------------------------------------------------------------
  // Taking
  // ---------------------------------------------------------------------------------

  /** One pop, by the flags and times of the waiter it finds on top: a waiter that has left or
      whose context is done is dropped; one older than the window is dropped and charged as an
      error; any other joins the batch. */
  lemma PopStep(s: State, j: nat)
    requires Ready(s, Pop(j))
    ensures var (i, w, t) := (s.stack[0], s.workers[j], Apply(s, Pop(j)));
      var (u, u') := (s.subs[i], if i < |t.subs| then t.subs[i] else s.subs[i]);
      var gone := u.w.abandoned || u.cancelled;
      var late := w.now - u.w.enqueued > w.stale;
      && i < |t.subs| && j < |t.workers| && t.workers[j].Taking?
      && t.stack == s.stack[1..] && t.depth == s.depth - 1 && t.ctr.respOK == s.ctr.respOK
      && t.ctr.respErr == s.ctr.respErr + (if !gone && late then 1 else 0)
      && t.ctr.staleSkips == s.ctr.staleSkips + (if !gone && late then 1 else 0)
      && t.workers[j].batch == w.batch + (if !gone && !late then [i] else [])
      && u'.w.taken == (u.w.taken || (!gone && !late)) && u'.w.skipped == (u.w.skipped || gone || late)
      && u'.pc == u.pc && u'.net == u.net
  {
    hide RiskHash;
  }

  /** A take uses one reading of the clock, of the patience window and of the stack for all
      its pops, those of the moment it locked the gate. */
  lemma {:induction false} TakeWindow(ss: seq<State>, es: seq<Event>, k: nat, j: nat) returns (p: nat)
    requires IsRun(ss, es) && k < |ss| && j < |ss[k].workers| && ss[k].workers[j].Taking?
    ensures p < k && p < |es| && es[p] == StartTake(j) && j < |ss[p].workers| && ss[p].workers[j].Take?
    ensures var (s, w) := (ss[p], ss[k].workers[j]);
      w.now == s.clock && w.stale == s.patience && w.from == s.stack && w.want == s.workers[j].want
  {
    hide IsRun, Init, Apply, Ready, PopTop;
    if k == 0 {
      NoTakeYet(ss, es, j);
    } else {
      RunLength(ss, es);
      var (s, e) := (ss[k - 1], es[k - 1]);
      RunStep(ss, es, k - 1);
      if e == Pop(j) {
        PopKeepsWindow(s, j);
        p := TakeWindow(ss, es, k - 1, j);
      } else {
        TakeUntouched(s, e, j);
        if e == StartTake(j) {
          StartStep(s, j);
          p := k - 1;
        } else {
          p := TakeWindow(ss, es, k - 1, j);
        }
      }
    }
  }

  lemma PopKeepsWindow(s: State, j: nat)
    requires Ready(s, Pop(j))
    ensures j < |s.workers| && j < |Apply(s, Pop(j)).workers| && Apply(s, Pop(j)).workers[j].Taking? && s.workers[j].Taking?
    ensures var (w, w') := (s.workers[j], Apply(s, Pop(j)).workers[j]);
      w'.now == w.now && w'.stale == w.stale && w'.from == w.from && w'.want == w.want
  {
    hide Judge;
  }

  lemma StartStep(s: State, j: nat)
    requires Ready(s, StartTake(j))
    ensures j < |s.workers| && s.workers[j].Take? && j < |Apply(s, StartTake(j)).workers|
    ensures Apply(s, StartTake(j)).workers[j]
         == Taking(s.workers[j].want, [], s.clock, s.patience, s.stack, [], s.ctr.staleSkips)
  {
  }

  /** How many waiters a worker about to take asks for: sixteen when the sixteen-lane kernel is
      installed and enough were parked when it looked; else four with the quad kernel, else two
      with the pair kernel, else one. */
  lemma {:induction false} WantIs(ss: seq<State>, es: seq<Event>, k: nat, j: nat) returns (p: nat)
    requires IsRun(ss, es) && k < |ss| && j < |ss[k].workers| && ss[k].workers[j].Take?
    ensures p < k && p < |es| && es[p] == ChooseLanes(j)
    ensures var (ks, n) := (ss[p].conf.kernels, ss[k].workers[j].want);
      && (ks.x16 && |ss[p].stack| >= ks.minBatch ==> n == 16)
      && (!(ks.x16 && |ss[p].stack| >= ks.minBatch) ==>
            (ks.quad ==> n == 4) && (!ks.quad && ks.pair ==> n == 2) && (!ks.quad && !ks.pair ==> n == 1))
  {
    hide IsRun, Apply, Ready;
    if k == 0 {
      AllAtTop(ss, es, j);
    } else {
      RunLength(ss, es);
      var (s, e) := (ss[k - 1], es[k - 1]);
      RunStep(ss, es, k - 1);
      if e == ChooseLanes(j) {
        StackShape(ss, es, k - 1);
        ChooseStep(s, j);
        p := k - 1;
      } else {
        WantKept(s, e, j);
        p := WantIs(ss, es, k - 1, j);
      }
    }
  }

  lemma AllAtTop(ss: seq<State>, es: seq<Event>, j: nat)
    requires IsRun(ss, es) && j < |ss[0].workers|
    ensures ss[0].workers[j].Top?
  {
  }

  lemma ChooseStep(s: State, j: nat)
    requires Ready(s, ChooseLanes(j))
    ensures j < |Apply(s, ChooseLanes(j)).workers|
    ensures var (ks, w) := (s.conf.kernels, Apply(s, ChooseLanes(j)).workers[j]);
      && (ks.x16 && s.depth >= ks.minBatch ==> w == Take(16))
      && (!(ks.x16 && s.depth >= ks.minBatch) ==>
            (ks.quad ==> w == Take(4)) && (!ks.quad && ks.pair ==> w == Take(2)) && (!ks.quad && !ks.pair ==> w == Take(1)))
  {
  }

  lemma WantKept(s: State, e: Event, j: nat)
    requires Ready(s, e) && e != ChooseLanes(j) && j < |Apply(s, e).workers| && Apply(s, e).workers[j].Take?
    ensures j < |s.workers| && s.workers[j] == Apply(s, e).workers[j]
  {
    hide SubStep, RiskHash, Judge, Lanes, Handed;
    if BySubmitter(e) {
      SubFrame(s, e);
    }
  }
}
