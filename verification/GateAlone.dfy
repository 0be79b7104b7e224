/** riskSubmit and the idle worker when nobody interferes: the atomic steps of the gate, one
    after the other, add up to what the functions they come from do. */
module GateAlone {
  import opened Gate
  import opened GateSafety
  import opened GateDecisions

  // ---------------------------------------------------------------------------------
  // Single steps
  // ---------------------------------------------------------------------------------

  /** s with submitter i replaced and the counters moved; nothing else. */
  predicate OnlySub(s: State, t: State, i: nat, u: Sub, ctr: Counters)
    requires i < |s.subs|
  {
    t == s.(subs := s.subs[i := u], ctr := ctr)
  }

  /** Refused for good, with one error charged: budgeted, or without a check. */
  function Refusal(u: Sub, abandoned: bool): Sub {
    u.(pc := Shed, net := u.net + 1, w := u.w.(abandoned := u.w.abandoned || abandoned))
  }

  function Budgeted(c: Counters): Counters {
    c.(respErr := c.respErr + 1)
  }

  function Unbudgeted(c: Counters): Counters {
    c.(respErr := c.respErr + 1, unbudgeted := c.unbudgeted + 1)
  }

  lemma WaitSteps(s: State, i: nat)
    requires i < |s.subs| && s.subs[i].pc.Wait?
    ensures OnlySub(s, Apply(s, PatienceFires(i)), i, s.subs[i].(pc := LoadOk(Patience)), s.ctr)
    ensures s.subs[i].cancelled ==> OnlySub(s, Apply(s, SeeCancel(i)), i, s.subs[i].(pc := Leave(false)), s.ctr)
  {
  }

  lemma LeaveStep(s: State, i: nat)
    requires Ready(s, LeaveGate(i))
    ensures var (u, t) := (s.subs[i], Apply(s, LeaveGate(i)));
      && (u.w.taken ==> OnlySub(s, t, i, u.(pc := if u.pc.reserved then Release else Recv), s.ctr))
      && (!u.w.taken ==>
            OnlySub(s, t, i, u.(w := u.w.(abandoned := true), pc := if u.pc.reserved then Shed else Disconnect), s.ctr))
  {
  }

  lemma ChargeSteps(s: State, i: nat)
    requires i < |s.subs|
    ensures var u := s.subs[i];
      && (u.pc.Release? ==>
            OnlySub(s, Apply(s, GiveBack(i)), i, u.(pc := Recv, net := u.net - 1), s.ctr.(respErr := s.ctr.respErr - 1)))
      && (u.pc.Disconnect? ==> OnlySub(s, Apply(s, ChargeDisconnect(i)), i, Refusal(u, false), Unbudgeted(s.ctr)))
      && (u.pc.Backstop? ==> OnlySub(s, Apply(s, ChargeBackstop(i)), i, Refusal(u, false), Unbudgeted(s.ctr)))
  {
  }

  lemma AnswerSteps(s: State, i: nat)
    requires i < |s.subs|
    ensures var u := s.subs[i];
      && (Ready(s, ReceiveDigest(i)) ==>
            OnlySub(s, Apply(s, ReceiveDigest(i)), i, u.(pc := Got(u.w.chan[0]), w := u.w.(chan := u.w.chan[1..])), s.ctr))
      && (u.pc.Got? ==>
            OnlySub(s, Apply(s, Respond(i)), i, u.(pc := Answered(u.pc.hash)), s.ctr.(respOK := s.ctr.respOK + 1)))
  {
  }

  // ---------------------------------------------------------------------------------
  // After parking
  // ---------------------------------------------------------------------------------

  /** A parked request whose patience runs out: without room in the budget it stays parked and
      nothing has changed; with room it is refused for one budgeted error, unless a worker has
      taken it, when it waits for its digest and the error is given back. */
  lemma TimeoutAlone(s: State, i: nat) returns (es: seq<Event>, t: State)
    requires i < |s.subs| && s.subs[i].pc.Wait? && s.mu.Free?
    ensures Leads(s, es, t) && es != [] && es[0] == PatienceFires(i)
    ensures var (u, granted) := (s.subs[i], Granted(s.ctr, s.conf.Bp()));
      && (!granted ==> t == s)
      && (granted && u.w.taken ==> OnlySub(s, t, i, u.(pc := Recv), s.ctr))
      && (granted && !u.w.taken ==> OnlySub(s, t, i, Refusal(u, true), Budgeted(s.ctr)))
  {
    hide Apply, Leads, Gate.Config.Bp, Granted;
    LeadsNowhere(s);
    WaitSteps(s, i);
    LeadsOneMore(s, [], s, PatienceFires(i));
    var s1 := Apply(s, PatienceFires(i));
    var es2, s2 := ReserveAlone(s1, i);
    es := [] + [PatienceFires(i)];
    LeadsOn(s, es, s1, es2, s2);
    es, t := es + es2, s2;
    if Granted(s.ctr, s.conf.Bp()) {
      LeaveStep(t, i);
      LeadsOneMore(s, es, t, LeaveGate(i));
      es, t := es + [LeaveGate(i)], Apply(t, LeaveGate(i));
      if s.subs[i].w.taken {
        ChargeSteps(t, i);
        LeadsOneMore(s, es, t, GiveBack(i));
        es, t := es + [GiveBack(i)], Apply(t, GiveBack(i));
      }
    } else {
      assert t.subs == s.subs;
    }
  }

  /** A parked request whose context is cancelled: it is refused for one error no budget check
      precedes, unless a worker has taken it, when it waits for its digest. */
  lemma GiveUpAlone(s: State, i: nat) returns (es: seq<Event>, t: State)
    requires i < |s.subs| && s.subs[i].pc.Wait? && s.subs[i].cancelled && s.mu.Free?
    ensures Leads(s, es, t) && es != [] && es[0] == SeeCancel(i)
    ensures var u := s.subs[i];
      && (u.w.taken ==> OnlySub(s, t, i, u.(pc := Recv), s.ctr))
      && (!u.w.taken ==> OnlySub(s, t, i, Refusal(u, true), Unbudgeted(s.ctr)))
  {
    hide Apply, Leads;
    LeadsNowhere(s);
    WaitSteps(s, i);
    LeadsOneMore(s, [], s, SeeCancel(i));
    es, t := [] + [SeeCancel(i)], Apply(s, SeeCancel(i));
    LeaveStep(t, i);
    LeadsOneMore(s, es, t, LeaveGate(i));
    es, t := es + [LeaveGate(i)], Apply(t, LeaveGate(i));
    if !s.subs[i].w.taken {
      ChargeSteps(t, i);
      LeadsOneMore(s, es, t, ChargeDisconnect(i));
      es, t := es + [ChargeDisconnect(i)], Apply(t, ChargeDisconnect(i));
    }
  }

  /** A request whose digest has arrived answers with it, and counts one success. */
  lemma AnswerAlone(s: State, i: nat) returns (es: seq<Event>, t: State)
    requires i < |s.subs| && (s.subs[i].pc.Wait? || s.subs[i].pc.Recv?) && s.subs[i].w.chan != []
    ensures Leads(s, es, t)
    ensures var u := s.subs[i];
      OnlySub(s, t, i, u.(pc := Answered(u.w.chan[0]), w := u.w.(chan := u.w.chan[1..])), s.ctr.(respOK := s.ctr.respOK + 1))
  {
    hide Apply, Leads;
    LeadsNowhere(s);
    AnswerSteps(s, i);
    LeadsOneMore(s, [], s, ReceiveDigest(i));
    es, t := [] + [ReceiveDigest(i)], Apply(s, ReceiveDigest(i));
    AnswerSteps(t, i);
    LeadsOneMore(s, es, t, Respond(i));
    es, t := es + [Respond(i)], Apply(t, Respond(i));
  }

  // ---------------------------------------------------------------------------------
  // The front door
  // ---------------------------------------------------------------------------------

  lemma EnterWhole(s: State, i: nat)
    requires Ready(s, EnterGate(i))
    ensures var (u, t) := (s.subs[i], Apply(s, EnterGate(i)));
      && (s.depth >= 2048 ==> OnlySub(s, t, i, u.(pc := Backstop), s.ctr))
      && (s.depth < 2048 ==>
            OnlySub(s.(mu := BySub(i)), t, i, u.(pc := if s.depth > 0 && s.idle == 0 then LoadOk(Front) else Push), s.ctr))
  {
  }

  lemma DoorSteps(s: State, i: nat)
    requires i < |s.subs|
    ensures s.subs[i].pc.FrontShed? ==> OnlySub(s.(mu := Free), Apply(s, UnlockShed(i)), i, s.subs[i].(pc := Shed), s.ctr)
    ensures s.subs[i].pc.Send? ==>
      OnlySub(s.(tokens := if s.tokens < 16 then s.tokens + 1 else s.tokens), Apply(s, SendToken(i)), i, s.subs[i].(pc := Wait), s.ctr)
  {
  }

  lemma PushWhole(s: State, i: nat)
    requires Ready(s, PushWaiter(i))
    ensures var u := s.subs[i];
      OnlySub(s.(stack := [i] + s.stack, depth := s.depth + 1, mu := Free), Apply(s, PushWaiter(i)), i,
              u.(pc := Send, w := u.w.(pushed := true, enqueued := s.clock)), s.ctr)
  {
  }

  /** The parked request, the stack with it on top, and a wake-up sent. */
  predicate Joins(s: State, t: State, i: nat)
    requires i < |s.subs|
  {
    var u := s.subs[i];
    OnlySub(s.(stack := [i] + s.stack, depth := s.depth + 1, tokens := if s.tokens < 16 then s.tokens + 1 else s.tokens), t, i,
            u.(pc := Wait, w := u.w.(pushed := true, enqueued := s.clock)), s.ctr)
  }

  lemma PushAlone(s: State, i: nat) returns (es: seq<Event>, t: State)
    requires Ready(s, PushWaiter(i))
    ensures Leads(s, es, t) && Joins(s.(mu := Free), t, i)
  {
    hide Apply, Leads;
    LeadsNowhere(s);
    PushWhole(s, i);
    LeadsOneMore(s, [], s, PushWaiter(i));
    es, t := [] + [PushWaiter(i)], Apply(s, PushWaiter(i));
    DoorSteps(t, i);
    LeadsOneMore(s, es, t, SendToken(i));
    es, t := es + [SendToken(i)], Apply(t, SendToken(i));
  }

  /** A request that comes in: with 2048 waiters parked it is refused for one unbudgeted error;
      with waiters parked, no worker idle and room in the budget it is refused for one budgeted
      error; otherwise it joins the stack. */
  lemma EnterAlone(s: State, i: nat) returns (es: seq<Event>, t: State)
    requires i < |s.subs| && s.subs[i].pc.Enter? && s.mu.Free?
    ensures Leads(s, es, t)
    ensures var (u, overloaded) := (s.subs[i], s.depth > 0 && s.idle == 0);
      if s.depth >= 2048 then OnlySub(s, t, i, Refusal(u, false), Unbudgeted(s.ctr))
      else if overloaded && Granted(s.ctr, s.conf.Bp()) then OnlySub(s, t, i, Refusal(u, false), Budgeted(s.ctr))
      else Joins(s, t, i)
  {
    hide Apply, Leads, Gate.Config.Bp, Granted;
    LeadsNowhere(s);
    EnterWhole(s, i);
    LeadsOneMore(s, [], s, EnterGate(i));
    es, t := [] + [EnterGate(i)], Apply(s, EnterGate(i));
    if s.depth >= 2048 {
      ChargeSteps(t, i);
      LeadsOneMore(s, es, t, ChargeBackstop(i));
      es, t := es + [ChargeBackstop(i)], Apply(t, ChargeBackstop(i));
      return;
    }
    if t.subs[i].pc.LoadOk? {
      var es', t' := ReserveAlone(t, i);
      LeadsOn(s, es, t, es', t');
      es, t := es + es', t';
    }
    if t.subs[i].pc.FrontShed? {
      DoorSteps(t, i);
      LeadsOneMore(s, es, t, UnlockShed(i));
      es, t := es + [UnlockShed(i)], Apply(t, UnlockShed(i));
    } else {
      var es', t' := PushAlone(t, i);
      LeadsOn(s, es, t, es', t');
      es, t := es + es', t';
    }
  }

  // ---------------------------------------------------------------------------------
  // The world
  // ---------------------------------------------------------------------------------

  /** What happens around the gate reaches it as one new request, one context, two counters of
      the other endpoints, the clock and the patience window, each alone. */
  lemma WorldSteps(s: State, e: Event)
    requires Ready(s, e)
    ensures e.Arrive? ==> Apply(s, e) == s.(subs := s.subs + [NewSub(e.seed)])
    ensures e.Cancel? ==> e.i < |s.subs| && OnlySub(s, Apply(s, e), e.i, s.subs[e.i].(cancelled := true), s.ctr)
    ensures e.PlainOK? ==> Apply(s, e) == s.(ctr := s.ctr.(respOK := s.ctr.respOK + 1, plainOK := s.ctr.plainOK + 1))
    ensures e.PlainErr? ==>
      Apply(s, e)
      == s.(ctr := s.ctr.(respErr := s.ctr.respErr + 1, plainErr := s.ctr.plainErr + 1, unbudgeted := s.ctr.unbudgeted + 1))
    ensures e.Tick? ==> Apply(s, e) == s.(clock := s.clock + e.d)
    ensures e.NewPatience? ==> Apply(s, e) == s.(patience := e.p)
  {
  }

  // ---------------------------------------------------------------------------------
  // Workers
  // ---------------------------------------------------------------------------------

  lemma WorkerSteps(s: State, j: nat)
    requires j < |s.workers|
    ensures Ready(s, Park(j)) ==> Apply(s, Park(j)) == s.(workers := s.workers[j := Parked], idle := s.idle + 1)
    ensures Ready(s, Wake(j)) ==> Apply(s, Wake(j)) == s.(workers := s.workers[j := Woken], tokens := s.tokens - 1)
    ensures Ready(s, Unpark(j)) ==> Apply(s, Unpark(j)) == s.(workers := s.workers[j := Top], idle := s.idle - 1)
  {
  }

  /** A worker that found nothing parks, counted as idle meanwhile, until it gets a token, and
      goes back to the head of its loop. */
  lemma IdleAlone(s: State, j: nat) returns (es: seq<Event>, t: State)
    requires j < |s.workers| && s.workers[j].Empty? && s.mu.Free? && s.tokens > 0
    ensures Leads(s, es, t) && es == [Park(j), Wake(j), Unpark(j)]
    ensures t == s.(workers := s.workers[j := Top], tokens := s.tokens - 1)
    ensures Apply(s, Park(j)).idle == s.idle + 1
  {
    hide Apply, Leads;
    LeadsNowhere(s);
    WorkerSteps(s, j);
    LeadsOneMore(s, [], s, Park(j));
    es, t := [] + [Park(j)], Apply(s, Park(j));
    WorkerSteps(t, j);
    LeadsOneMore(s, es, t, Wake(j));
    es, t := es + [Wake(j)], Apply(t, Wake(j));
    WorkerSteps(t, j);
    LeadsOneMore(s, es, t, Unpark(j));
    es, t := es + [Unpark(j)], Apply(t, Unpark(j));
    assert t.workers == s.workers[j := Top];
  }

  /** A take ends when its batch is full or the stack empty: with a batch the worker goes on to
      hash it, without one to park; the gate is unlocked and nothing else changes. */
  lemma EndStep(s: State, j: nat)
    requires j < |s.workers| && s.workers[j].Taking?
    ensures Ready(s, EndTake(j)) <==> |s.workers[j].batch| >= s.workers[j].want || s.stack == []
    ensures Ready(s, EndTake(j)) ==> var b := s.workers[j].batch;
      Apply(s, EndTake(j)) == s.(workers := s.workers[j := if b == [] then Empty else Running(b)], mu := Free)
  {
  }
}
