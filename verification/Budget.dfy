/** The error budget of the /risk gate: derivation from the declared error gate, and the
    arithmetic of one reservation. */
module Budget {
  import opened Options

  /** RISK_ERR_GATE_BP: basis points, honoured between 10 and 1000. */
  function ErrorGate(env: Option<int>): (g: int)
    ensures 10 <= g <= 1000
  {
    if env.Some? && 10 <= env.value <= 1000 then env.value else 100
  }

  /** The shed budget in basis points: 88% of the gate, or the override, never above 95%. */
  function DeriveBudget(gateEnv: Option<int>, budgetEnv: Option<int>): int {
    var gate := ErrorGate(gateEnv);
    var b := if budgetEnv.Some? && budgetEnv.value >= 0 then budgetEnv.value else gate * 88 / 100;
    var max := gate * 95 / 100;
    if b > max then max else b
  }

  /** The gate is the declared one when that lies within 10..1000 and 100 otherwise.  No setting
      of the two knobs takes the budget past 95% of it; an override up to there is honoured, one
      above is cut off there, and without one the budget is 88% of the gate, rounded down. */
  lemma BudgetBelowGate(gateEnv: Option<int>, budgetEnv: Option<int>)
    ensures var (b, gate) := (DeriveBudget(gateEnv, budgetEnv), ErrorGate(gateEnv));
      && gate == (if gateEnv.Some? && 10 <= gateEnv.value <= 1000 then gateEnv.value else 100)
      && 0 <= b <= 950 && 100 * b <= 95 * gate
      && (budgetEnv.Some? && 100 * budgetEnv.value > 95 * gate ==> 95 * gate < 100 * (b + 1))
      && (budgetEnv.Some? && 0 <= budgetEnv.value && 100 * budgetEnv.value <= 95 * gate ==> b == budgetEnv.value)
      && (budgetEnv.None? || budgetEnv.value < 0 ==> 100 * b <= 88 * gate < 100 * (b + 1))
  {
  }

  const MIN_TOTAL := 500

  /** May one more error be charged when ok and err are the two counters? */
  predicate Affordable(ok: int, err: int, bp: int) {
    ok + err >= MIN_TOTAL && (err + 1) * 10000 <= (ok + err) * bp
  }

  /** The errors charged against the budget stay inside it. */
  predicate Within(charged: int, total: int, bp: int) {
    charged * 10000 <= total * bp
  }

  lemma Reserve(ok: int, ok': int, err: int, unbudgeted: nat, bp: int)
    requires 0 <= bp && ok <= ok'
    requires Affordable(ok, err, bp)
    ensures Within(err + 1 - unbudgeted, ok' + err + 1, bp)
  {
    Grow(ok + err, ok' + err + 1, bp);
  }

  lemma Grow(total: int, total': int, bp: int)
    requires total <= total' && 0 <= bp
    ensures total * bp <= total' * bp
  {
  }

  lemma Release(charged: int, total: int, bp: int)
    requires 0 <= bp <= 10000 && Within(charged, total, bp)
    ensures Within(charged - 1, total - 1, bp)
  {
    assert (total - 1) * bp == total * bp - bp;
  }
}
