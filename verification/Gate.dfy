/** The /risk admission gate as atomic steps of any number of submitters and hash workers.
    One step is one mutex section, one atomic load, add or compare-and-swap, or one channel
    operation; a section that performs other atomic operations while it holds the mutex is
    split into one step for each of them. */
module Gate {
  import opened Budget
  import opened Options
  import opened Sha256

  type Text = seq<Byte>

  // ---------------------------------------------------------------------------------
  // Submitters: one per /risk request
  // ---------------------------------------------------------------------------------

  /** Who is running shedReserveError: the front door, holding the mutex, or the patience
      timer of a parked waiter. */
  datatype Door = Front | Patience

  datatype SubPc =
    | Enter                               // about to lock the gate
    | Backstop                            // turned away by the stack limit, charge to come
    | LoadOk(door: Door)                  // shedReserveError, first load
    | LoadErr(door: Door, ok: int)        // second load, also after a lost race
    | Cas(door: Door, ok: int, err: int)
    | FrontShed                           // reserved at the front door, still holding the mutex
    | Push                                // holding the mutex
    | Send                                // pushed, wake-up not sent yet
    | Wait                                // in the select
    | Leave(reserved: bool)               // left the select, about to lock the gate
    | Release                             // taken after all: give the reservation back
    | Recv                                // taken: wait for the digest
    | Disconnect                          // abandoned without a reservation, charge to come
    | Shed                                // returned false
    | Got(hash: Text)                     // returned true, response to come
    | Answered(hash: Text)                // 200 written and counted

  /** The waiter a request parks.  pushed, skipped (popped without being taken), owner and
      sends (deliveries to the channel so far) only record history. */
  datatype Waiter = Waiter(
    enqueued: int, taken: bool, abandoned: bool, chan: seq<Text>,
    pushed: bool, skipped: bool, owner: nat, sends: nat)

  /** A submitter.  net records what this request has added to respErr. */
  datatype Sub = Sub(seed: Text, pc: SubPc, cancelled: bool, w: Waiter, net: int)

  // ---------------------------------------------------------------------------------
  // Workers
  // ---------------------------------------------------------------------------------

  /** riskTakeWork's verdict on a waiter it pops. */
  datatype Verdict = Dead | Stale | Serve

  /** Of a take, from (the stack as it found it), seen (the verdicts on the waiters popped so
      far) and skips (the stale skips of the run before it) only record history. */
  datatype Worker =
    | Top                                  // head of the loop, about to choose the lane count
    | Take(want: nat)                      // about to enter riskTakeWork
    | Taking(want: nat, batch: seq<nat>, now: int, stale: int,   // holding the mutex
             from: seq<nat>, seen: seq<Verdict>, skips: nat)
    | Empty                                // took nothing, about to count itself idle
    | Parked                               // blocked on the wake channel
    | Woken                                // received a token, about to stop counting as idle
    | Running(batch: seq<nat>)             // waiters whose digest is still to be delivered

  datatype Holder = Free | BySub(i: nat) | ByWorker(j: nat)

  /** Which kernels are installed, and the smallest batch worth sixteen lanes. */
  datatype Kernels = Kernels(x16: bool, quad: bool, pair: bool, minBatch: int)

  /** respOK and respErr, and what the history of the run adds up to: responses of the other
      endpoints, stale waiters skipped, and charges no budget check preceded. */
  datatype Counters = Counters(respOK: int, respErr: int, plainOK: nat, plainErr: nat, staleSkips: nat, unbudgeted: nat)

  datatype Config = Config(gateEnv: Option<int>, budgetEnv: Option<int>, kernels: Kernels) {
    function Bp(): int {
      DeriveBudget(gateEnv, budgetEnv)
    }
  }

  datatype State = State(
    ctr: Counters, subs: seq<Sub>, workers: seq<Worker>,
    stack: seq<nat>, depth: int, idle: int, tokens: nat, mu: Holder,
    clock: int, patience: int, conf: Config)

  const STACK_BACKSTOP := 2048
  const WAKE_BUFFER := 16
  const MAX_LANES := 16

  datatype Event =
    // the world around the gate
    | Arrive(seed: Text) | Cancel(i: nat) | PlainOK | PlainErr | Tick(d: nat) | NewPatience(p: int)
    // submitters
    | EnterGate(i: nat) | ChargeBackstop(i: nat)
    | ReadOk(i: nat) | ReadErr(i: nat) | TryCas(i: nat) | UnlockShed(i: nat)
    | PushWaiter(i: nat) | SendToken(i: nat)
    | ReceiveDigest(i: nat) | SeeCancel(i: nat) | PatienceFires(i: nat)
    | LeaveGate(i: nat) | GiveBack(i: nat) | ChargeDisconnect(i: nat) | Respond(i: nat)
    // workers
    | ChooseLanes(j: nat) | StartTake(j: nat) | Pop(j: nat) | EndTake(j: nat)
    | Park(j: nat) | Wake(j: nat) | Unpark(j: nat) | Deliver(j: nat)

  /** The number of waiters a worker asks for. */
  function Lanes(k: Kernels, depth: int): (n: nat)
    ensures 1 <= n <= MAX_LANES
  {
    if k.x16 && depth >= k.minBatch then 16 else if k.quad then 4 else if k.pair then 2 else 1
  }

  predicate Ready(s: State, e: Event) {
    match e
    case Arrive(_) => true
    case Cancel(i) => i < |s.subs|
    case PlainOK => true
    case PlainErr => true
    case Tick(_) => true
    case NewPatience(_) => true
    case EnterGate(i) => i < |s.subs| && s.subs[i].pc.Enter? && s.mu.Free?
    case ChargeBackstop(i) => i < |s.subs| && s.subs[i].pc.Backstop?
    case ReadOk(i) => i < |s.subs| && s.subs[i].pc.LoadOk?
    case ReadErr(i) => i < |s.subs| && s.subs[i].pc.LoadErr?
    case TryCas(i) => i < |s.subs| && s.subs[i].pc.Cas?
    case UnlockShed(i) => i < |s.subs| && s.subs[i].pc.FrontShed?
    case PushWaiter(i) => i < |s.subs| && s.subs[i].pc.Push?
    case SendToken(i) => i < |s.subs| && s.subs[i].pc.Send?
    case ReceiveDigest(i) => i < |s.subs| && (s.subs[i].pc.Wait? || s.subs[i].pc.Recv?) && s.subs[i].w.chan != []
    case SeeCancel(i) => i < |s.subs| && s.subs[i].pc.Wait? && s.subs[i].cancelled
    case PatienceFires(i) => i < |s.subs| && s.subs[i].pc.Wait?
    case LeaveGate(i) => i < |s.subs| && s.subs[i].pc.Leave? && s.mu.Free?
    case GiveBack(i) => i < |s.subs| && s.subs[i].pc.Release?
    case ChargeDisconnect(i) => i < |s.subs| && s.subs[i].pc.Disconnect?
    case Respond(i) => i < |s.subs| && s.subs[i].pc.Got?
    case ChooseLanes(j) => j < |s.workers| && s.workers[j].Top? && (s.conf.kernels.x16 ==> s.mu.Free?)
    case StartTake(j) => j < |s.workers| && s.workers[j].Take? && s.mu.Free?
    case Pop(j) => j < |s.workers| && s.workers[j].Taking? && |s.workers[j].batch| < s.workers[j].want
                   && s.stack != [] && s.stack[0] < |s.subs|
    case EndTake(j) => j < |s.workers| && s.workers[j].Taking? && (|s.workers[j].batch| >= s.workers[j].want || s.stack == [])
    case Park(j) => j < |s.workers| && s.workers[j].Empty? && s.mu.Free?
    case Wake(j) => j < |s.workers| && s.workers[j].Parked? && s.tokens > 0
    case Unpark(j) => j < |s.workers| && s.workers[j].Woken? && s.mu.Free?
    case Deliver(j) => j < |s.workers| && s.workers[j].Running? && s.workers[j].batch != []
                       && s.workers[j].batch[0] < |s.subs| && |s.subs[s.workers[j].batch[0]].w.chan| < 1
  }

  // ---------------------------------------------------------------------------------
  // What a step does
  // ---------------------------------------------------------------------------------

  function SetPc(s: State, i: nat, pc: SubPc): State
    requires i < |s.subs|
  {
    s.(subs := s.subs[i := s.subs[i].(pc := pc)])
  }

  /** Moves submitter i to pc and adds d to respErr on its behalf. */
  function ChargeTo(s: State, i: nat, pc: SubPc, d: int): State
    requires i < |s.subs|
  {
    s.(subs := s.subs[i := s.subs[i].(pc := pc, net := s.subs[i].net + d)], ctr := s.ctr.(respErr := s.ctr.respErr + d))
  }

  /** As ChargeTo by one, with no budget check before it. */
  function ChargeFree(s: State, i: nat, pc: SubPc): State
    requires i < |s.subs|
  {
    var t := ChargeTo(s, i, pc, 1);
    t.(ctr := t.ctr.(unbudgeted := t.ctr.unbudgeted + 1))
  }

  function SetWorker(s: State, j: nat, w: Worker): State
    requires j < |s.workers|
  {
    s.(workers := s.workers[j := w])
  }

  function NewSub(seed: Text): Sub {
    Sub(seed, Enter, false, Waiter(0, false, false, [], false, false, 0, 0), 0)
  }

  /** Where shedReserveError returns false to. */
  function Refused(door: Door): SubPc {
    if door.Front? then Push else Wait
  }

  function VerdictFor(gone: bool, enqueued: int, now: int, stale: int): Verdict {
    if gone then Dead else if now - enqueued > stale then Stale else Serve
  }

  function Judge(u: Sub, now: int, stale: int): Verdict {
    VerdictFor(u.w.abandoned || u.cancelled, u.w.enqueued, now, stale)
  }

  function PopTop(s: State, j: nat): State
    requires Ready(s, Pop(j))
  {
    var w := s.workers[j];
    var i := s.stack[0];
    var u := s.subs[i];
    var t := s.(stack := s.stack[1..], depth := s.depth - 1);
    var v := Judge(u, w.now, w.stale);
    var w' := w.(seen := w.seen + [v]);
    match v
    case Dead => SetWorker(t.(subs := t.subs[i := u.(w := u.w.(skipped := true))]), j, w')
    case Stale =>
      SetWorker(t.(subs := t.subs[i := u.(w := u.w.(skipped := true))],
                   ctr := t.ctr.(respErr := t.ctr.respErr + 1, staleSkips := t.ctr.staleSkips + 1,
                                 unbudgeted := t.ctr.unbudgeted + 1)), j, w')
    case Serve =>
      SetWorker(t.(subs := t.subs[i := u.(w := u.w.(taken := true, owner := j))]), j, w'.(batch := w.batch + [i]))
  }

  /** A digest put on a waiter's channel. */
  function Handed(u: Sub, h: Text): Sub {
    u.(w := u.w.(chan := u.w.chan + [h], sends := u.w.sends + 1))
  }

  function Delivered(u: Sub): Sub {
    Handed(u, RiskHash(u.seed))
  }

  /** Worker j sends h to the next waiter of its batch. */
  function SendDigest(s: State, j: nat, h: Text): State
    requires Ready(s, Deliver(j))
  {
    var b := s.workers[j].batch;
    SetWorker(s, j, if |b| == 1 then Top else Running(b[1..])).(subs := s.subs[b[0] := Handed(s.subs[b[0]], h)])
  }

  predicate BySubmitter(e: Event) {
    e.EnterGate? || e.ChargeBackstop? || e.ReadOk? || e.ReadErr? || e.TryCas? || e.UnlockShed? || e.PushWaiter?
    || e.SendToken? || e.ReceiveDigest? || e.SeeCancel? || e.PatienceFires? || e.LeaveGate? || e.GiveBack?
    || e.ChargeDisconnect? || e.Respond?
  }

  predicate ByWorkers(e: Event) {
    e.ChooseLanes? || e.StartTake? || e.Pop? || e.EndTake? || e.Park? || e.Wake? || e.Unpark? || e.Deliver?
  }

  function SubStep(s: State, e: Event): State
    requires Ready(s, e) && BySubmitter(e)
  {
    var u := s.subs[e.i];
    match e
    case EnterGate(i) =>
      if s.depth >= STACK_BACKSTOP then SetPc(s, i, Backstop)
      else SetPc(s, i, if s.depth > 0 && s.idle == 0 then LoadOk(Front) else Push).(mu := BySub(i))
    case ChargeBackstop(i) => ChargeFree(s, i, Shed)
    case ReadOk(i) => SetPc(s, i, LoadErr(u.pc.door, s.ctr.respOK))
    case ReadErr(i) =>
      SetPc(s, i, if Affordable(u.pc.ok, s.ctr.respErr, s.conf.Bp()) then Cas(u.pc.door, u.pc.ok, s.ctr.respErr) else Refused(u.pc.door))
    case TryCas(i) =>
      if s.ctr.respErr == u.pc.err then ChargeTo(s, i, if u.pc.door.Front? then FrontShed else Leave(true), 1)
      else SetPc(s, i, LoadErr(u.pc.door, u.pc.ok))
    case UnlockShed(i) => SetPc(s, i, Shed).(mu := Free)
    case PushWaiter(i) =>
      s.(subs := s.subs[i := u.(pc := Send, w := u.w.(pushed := true, enqueued := s.clock))],
         stack := [i] + s.stack, depth := s.depth + 1, mu := Free)
    case SendToken(i) => SetPc(s, i, Wait).(tokens := if s.tokens < WAKE_BUFFER then s.tokens + 1 else s.tokens)
    case ReceiveDigest(i) => s.(subs := s.subs[i := u.(pc := Got(u.w.chan[0]), w := u.w.(chan := u.w.chan[1..]))])
    case SeeCancel(i) => SetPc(s, i, Leave(false))
    case PatienceFires(i) => SetPc(s, i, LoadOk(Patience))
    case LeaveGate(i) =>
      if u.w.taken then SetPc(s, i, if u.pc.reserved then Release else Recv)
      else s.(subs := s.subs[i := u.(w := u.w.(abandoned := true), pc := if u.pc.reserved then Shed else Disconnect)])
    case GiveBack(i) => ChargeTo(s, i, Recv, -1)
    case ChargeDisconnect(i) => ChargeFree(s, i, Shed)
    case Respond(i) => SetPc(s, i, Answered(u.pc.hash)).(ctr := s.ctr.(respOK := s.ctr.respOK + 1))
  }

  function WorldStep(s: State, e: Event): State
    requires Ready(s, e) && !BySubmitter(e) && !ByWorkers(e)
  {
    match e
    case Arrive(seed) => s.(subs := s.subs + [NewSub(seed)])
    case Cancel(i) => s.(subs := s.subs[i := s.subs[i].(cancelled := true)])
    case PlainOK => s.(ctr := s.ctr.(respOK := s.ctr.respOK + 1, plainOK := s.ctr.plainOK + 1))
    case PlainErr =>
      s.(ctr := s.ctr.(respErr := s.ctr.respErr + 1, plainErr := s.ctr.plainErr + 1, unbudgeted := s.ctr.unbudgeted + 1))
    case Tick(d) => s.(clock := s.clock + d)
    case NewPatience(p) => s.(patience := p)
  }

  function WorkerStep(s: State, e: Event): State
    requires Ready(s, e) && ByWorkers(e)
  {
    match e
    case ChooseLanes(j) => SetWorker(s, j, Take(Lanes(s.conf.kernels, s.depth)))
    case StartTake(j) => SetWorker(s, j, Taking(s.workers[j].want, [], s.clock, s.patience, s.stack, [], s.ctr.staleSkips)).(mu := ByWorker(j))
    case Pop(j) => PopTop(s, j)
    case EndTake(j) =>
      var b := s.workers[j].batch;
      SetWorker(s, j, if b == [] then Empty else Running(b)).(mu := Free)
    case Park(j) => SetWorker(s, j, Parked).(idle := s.idle + 1)
    case Wake(j) => SetWorker(s, j, Woken).(tokens := s.tokens - 1)
    case Unpark(j) => SetWorker(s, j, Top).(idle := s.idle - 1)
    case Deliver(j) => SendDigest(s, j, RiskHash(s.subs[s.workers[j].batch[0]].seed))
  }

  function Apply(s: State, e: Event): State
    requires Ready(s, e)
  {
    if BySubmitter(e) then SubStep(s, e) else if ByWorkers(e) then WorkerStep(s, e) else WorldStep(s, e)
  }

  /** Workers at the head of their loop, nothing counted, an empty stack. */
  predicate Init(s: State) {
    && s.subs == [] && s.stack == [] && s.mu.Free?
    && s.ctr == Counters(0, 0, 0, 0, 0, 0) && s.depth == 0 && s.idle == 0 && s.tokens == 0
    && forall j | 0 <= j < |s.workers| :: s.workers[j].Top?
  }

  /** A run: its states and the events between them. */
  predicate IsRun(ss: seq<State>, es: seq<Event>) {
    && |ss| == |es| + 1
    && Init(ss[0])
    && forall k | 0 <= k < |es| :: Ready(ss[k], es[k]) && ss[k + 1] == Apply(ss[k], es[k])
  }
}
