/** The chain-cost average and the patience window derived from it, with Go's truncating
    division and with any number of workers updating without a lock. */
module Patience {

  const MS := 1_000_000
  const LATENCY_BUDGET := 1500 * MS
  const SAFETY_MARGIN := 300 * MS
  const FLOOR := 100 * MS

  /** Go's integer division by 8: truncates toward zero. */
  function Eighth(n: int): int {
    if n >= 0 then n / 8 else -((-n) / 8)
  }

  function Clamp(d: int): (c: int)
    ensures 1 * MS <= c <= 500 * MS
  {
    if d < 1 * MS then 1 * MS else if d > 500 * MS then 500 * MS else d
  }

  /** One averaging step on a clamped sample. */
  function Fold(was: int, d: int): int {
    was + Eighth(d - was)
  }

  function Window(ewma: int): int {
    var p := LATENCY_BUDGET - ewma - SAFETY_MARGIN;
    if p < FLOOR then FLOOR else p
  }

  // ---------------------------------------------------------------------------------
  // One step
  // ---------------------------------------------------------------------------------

  /** A sample is folded as it is when it lies within 1..500 ms and as the nearer bound when
      it does not, so a longer sample never counts for less. */
  lemma ClampNearest(d: int, d': int)
    ensures 1_000_000 <= d <= 500_000_000 ==> Clamp(d) == d
    ensures d <= 1_000_000 ==> Clamp(d) == 1_000_000
    ensures d >= 500_000_000 ==> Clamp(d) == 500_000_000
    ensures d <= d' ==> Clamp(d) <= Clamp(d')
  {
  }

  /** The average never leaves the interval between the earlier value and the sample, moves
      whenever they are 8 ns or more apart, and never passes the sample. */
  lemma FoldBetween(was: int, d: int)
    ensures was <= d ==> was <= Fold(was, d) <= d
    ensures d <= was ==> d <= Fold(was, d) <= was
    ensures Fold(was, d) == was <==> -7 <= d - was <= 7
  {
  }

  function Abs(n: int): nat {
    if n < 0 then -n else n
  }

  /** Each step takes an eighth off the distance, rounded down. */
  lemma FoldShrinks(was: int, d: int)
    ensures Abs(Fold(was, d) - d) == Abs(was - d) - Abs(was - d) / 8
  {
  }

  function Repeat(was: int, d: int, n: nat): int {
    if n == 0 then was else Fold(Repeat(was, d, n - 1), d)
  }

  /** Under a constant sample the distance shrinks strictly until it is at most 7 ns, within
      as many steps as it was nanoseconds; the average stays on its side of the sample. */
  lemma {:induction false} Converges(was: int, d: int, n: nat)
    ensures var x := Repeat(was, d, n);
      && (was <= d ==> was <= x <= d) && (d <= was ==> d <= x <= was)
      && Abs(x - d) <= Abs(was - d)
      && (Abs(x - d) <= 7 || Abs(x - d) + n <= Abs(was - d))
  {
    if n > 0 {
      Converges(was, d, n - 1);
      var y := Repeat(was, d, n - 1);
      FoldBetween(y, d);
      FoldShrinks(y, d);
    }
  }

  lemma Settles(was: int, d: int, n: nat)
    requires n >= Abs(was - d)
    ensures Abs(Repeat(was, d, n) - d) <= 7
  {
    Converges(was, d, n);
  }

  // ---------------------------------------------------------------------------------
  // Concurrent observers
  // ---------------------------------------------------------------------------------

  /** An observer between its load and its store, or between its two stores. */
  datatype Observer = Idle | Loaded(d: int, was: int) | Averaged(ewma: int)

  /** from is the average the current window was computed from. */
  datatype Cost = Cost(ewma: int, patience: int, from: int, obs: seq<Observer>)

  datatype CostEvent = LoadCost(i: nat, wall: int) | StoreCost(i: nat) | StorePatience(i: nat)

  predicate CanStep(s: Cost, e: CostEvent) {
    match e
    case LoadCost(i, _) => i < |s.obs| && s.obs[i].Idle?
    case StoreCost(i) => i < |s.obs| && s.obs[i].Loaded?
    case StorePatience(i) => i < |s.obs| && s.obs[i].Averaged?
  }

  function Step(s: Cost, e: CostEvent): Cost
    requires CanStep(s, e)
  {
    match e
    case LoadCost(i, wall) => s.(obs := s.obs[i := Loaded(Clamp(wall), s.ewma)])
    case StoreCost(i) =>
      var x := Fold(s.obs[i].was, s.obs[i].d);
      s.(ewma := x, obs := s.obs[i := Averaged(x)])
    case StorePatience(i) =>
      var x := s.obs[i].ewma;
      s.(patience := Window(x), from := x, obs := s.obs[i := Idle])
  }

  /** calibrateRisk seeds average and window from a measured cost that is not clamped. */
  predicate Calibrated(s: Cost, cost: int) {
    s.ewma == cost && s.patience == Window(cost) && s.from == cost && forall i | 0 <= i < |s.obs| :: s.obs[i].Idle?
  }

  ghost predicate CostRun(cost: int, ss: seq<Cost>, es: seq<CostEvent>) {
    && |ss| == |es| + 1 && Calibrated(ss[0], cost)
    && forall k | 0 <= k < |es| :: CanStep(ss[k], es[k]) && ss[k + 1] == Step(ss[k], es[k])
  }

  predicate Inside(x: int, lo: int, hi: int) {
    lo <= x <= hi
  }

  /** Every average in the shared word or in a worker's hands lies between lo and hi. */
  ghost predicate CostOk(s: Cost, lo: int, hi: int) {
    && Inside(s.ewma, lo, hi) && Inside(s.from, lo, hi) && s.patience == Window(s.from)
    && forall i | 0 <= i < |s.obs| ::
         match s.obs[i]
         case Idle => true
         case Loaded(d, was) => Inside(d, lo, hi) && Inside(was, lo, hi)
         case Averaged(x) => Inside(x, lo, hi)
  }

  lemma KeepCost(s: Cost, e: CostEvent, lo: int, hi: int)
    requires CostOk(s, lo, hi) && CanStep(s, e) && (e.LoadCost? ==> Inside(Clamp(e.wall), lo, hi))
    ensures CostOk(Step(s, e), lo, hi)
  {
    if e.StoreCost? {
      FoldBetween(s.obs[e.i].was, s.obs[e.i].d);
    }
  }

  /** However updates race and get lost, the average stays in the hull of its start value
      and the clamped samples taken so far. */
  lemma {:induction false} HullHolds(cost: int, ss: seq<Cost>, es: seq<CostEvent>, k: nat, lo: int, hi: int)
    requires CostRun(cost, ss, es) && k < |ss| && Inside(cost, lo, hi)
    requires forall i | 0 <= i < k && es[i].LoadCost? :: Inside(Clamp(es[i].wall), lo, hi)
    ensures CostOk(ss[k], lo, hi)
  {
    hide CostOk, Step, Clamp;
    if k == 0 {
      StartOk(cost, ss[0], lo, hi);
    } else {
      HullHolds(cost, ss, es, k - 1, lo, hi);
      KeepCost(ss[k - 1], es[k - 1], lo, hi);
    }
  }

  lemma StartOk(cost: int, s: Cost, lo: int, hi: int)
    requires Calibrated(s, cost) && Inside(cost, lo, hi)
    ensures CostOk(s, lo, hi)
  {
  }

  /** Whatever is sampled, the average stays in the hull of its start value and the range the
      samples are clamped to. */
  lemma RangeHolds(cost: int, ss: seq<Cost>, es: seq<CostEvent>, k: nat)
    requires CostRun(cost, ss, es) && k < |ss|
    ensures CostOk(ss[k], if cost < 1 * MS then cost else 1 * MS, if cost > 500 * MS then cost else 500 * MS)
  {
    hide CostOk, Step;
    HullHolds(cost, ss, es, k, if cost < 1 * MS then cost else 1 * MS, if cost > 500 * MS then cost else 500 * MS);
  }

  /** Patience always lies between 100 ms and 1200 ms, and together with the average it was
      computed from and the margin it fits the 1500 ms budget unless it is at the floor. */
  lemma PatienceBounds(cost: int, ss: seq<Cost>, es: seq<CostEvent>, k: nat)
    requires cost >= 0 && CostRun(cost, ss, es) && k < |ss|
    ensures var s := ss[k];
      && 100_000_000 <= s.patience <= 1_200_000_000
      && (s.patience == 100_000_000 || s.patience + s.from + 300_000_000 == 1_500_000_000)
  {
    RangeHolds(cost, ss, es, k);
  }

  /** The window is never cut off at the floor, in any state of a run, if and only if the boot
      measurement is at most 1100 ms. */
  lemma FloorOnlyFromBoot(cost: int, ss: seq<Cost>, es: seq<CostEvent>)
    requires CostRun(cost, ss, es)
    ensures (forall k | 0 <= k < |ss| :: ss[k].patience + ss[k].from + 300_000_000 == 1_500_000_000)
       <==> cost <= 1_100_000_000
  {
    hide Step;
    if cost <= 1100 * MS {
      forall k | 0 <= k < |ss| ensures ss[k].patience + ss[k].from + 300_000_000 == 1_500_000_000 {
        RangeHolds(cost, ss, es, k);
      }
    }
    assert ss[0].patience == Window(cost) && ss[0].from == cost;
  }

  /** An observer nobody interferes with does what Observe below does: it folds its own clamped
      sample into the shared average and derives the window from the result. */
  lemma ObserveAlone(s: Cost, i: nat, wall: int)
    requires CanStep(s, LoadCost(i, wall))
    ensures var s1 := Step(s, LoadCost(i, wall));
      CanStep(s1, StoreCost(i)) && CanStep(Step(s1, StoreCost(i)), StorePatience(i))
      && var (x, t) := (Fold(s.ewma, Clamp(wall)), Step(Step(s1, StoreCost(i)), StorePatience(i)));
      t.ewma == x && t.patience == Window(x) && t.from == x && t.obs == s.obs
  {
    var t := Step(Step(Step(s, LoadCost(i, wall)), StoreCost(i)), StorePatience(i));
    assert t.obs == s.obs;
  }

  // ---------------------------------------------------------------------------------
  // One observer at a time
  // ---------------------------------------------------------------------------------

  class ChainCost {
    var ewma: int
    var patience: int

    /** The seed calibrateRisk stores, not clamped. */
    constructor (cost: int)
      ensures ewma == cost && patience == Window(cost)
    {
      ewma := cost;
      var p := LATENCY_BUDGET - cost - SAFETY_MARGIN;
      if p < FLOOR {
        p := FLOOR;
      }
      patience := p;
    }

    /** observeChainCost without a competing observer. */
    method Observe(wall: int)
      modifies this
      ensures 1 * MS <= wall <= 500 * MS ==> ewma == Fold(old(ewma), wall)
      ensures wall < 1 * MS ==> ewma == Fold(old(ewma), 1 * MS)
      ensures wall > 500 * MS ==> ewma == Fold(old(ewma), 500 * MS)
      ensures patience == Window(ewma)
    {
      var d := wall;
      if d < 1 * MS {
        d := 1 * MS;
      } else if d > 500 * MS {
        d := 500 * MS;
      }
      ewma := ewma + Eighth(d - ewma);
      var p := LATENCY_BUDGET - ewma - SAFETY_MARGIN;
      if p < FLOOR {
        p := FLOOR;
      }
      patience := p;
    }
  }
}
