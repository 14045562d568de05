/** The worst-budget scan of the monthly and daily budget evaluators in
    apps/api/src/health/alerting.service.ts, with exact ratios. */
module BudgetAlerts {
  import opened Options

  /** A budget record, as far as its evaluators read it. */
  datatype Budget = Budget(monthlyLimitCents: int, currentSpendCents: int, warnPct: real, criticalPct: real,
                           dailyLimitCents: Option<int>, currentDailySpendCents: int,
                           dailyWarnPct: Option<real>, dailyCriticalPct: Option<real>)

  /** A budget as one scan sees it: its spend as a percentage of its limit, and its two
      thresholds.  A budget without a positive limit is passed over. */
  datatype Reading = Reading(counts: bool, spendPct: real, warnPct: real, criticalPct: real)

  const PASSED_OVER := Reading(false, 0.0, 1.0, 1.0)

  function SpendPct(spend: int, limit: int): real
    requires limit > 0
  {
    spend as real / limit as real * 100.0
  }

  function Monthly(b: Budget): Reading {
    if b.monthlyLimitCents <= 0 then PASSED_OVER
    else Reading(true, SpendPct(b.currentSpendCents, b.monthlyLimitCents), b.warnPct, b.criticalPct)
  }

  function Or(value: Option<real>, default: real): real {
    if value.Some? then value.value else default
  }

  function Daily(b: Budget): Reading {
    if b.dailyLimitCents.None? || b.dailyLimitCents.value <= 0 then PASSED_OVER
    else Reading(true, SpendPct(b.currentDailySpendCents, b.dailyLimitCents.value), Or(b.dailyWarnPct, 75.0),
                 Or(b.dailyCriticalPct, 90.0))
  }

  /** Percentages compare as the ratios of spend and limit do. */
  lemma {:induction false} RatiosCompare(spend: int, limit: int, spend': int, limit': int, pct: real)
    requires limit > 0 && limit' > 0
    ensures SpendPct(spend, limit) <= SpendPct(spend', limit') <==> spend * limit' <= spend' * limit
    ensures SpendPct(spend, limit) >= pct <==> spend as real * 100.0 >= pct * limit as real
  {
    var a, b, c, d := spend as real, limit as real, spend' as real, limit' as real;
    Quotient(a, b);
    Quotient(c, d);
    Scaled(a / b, c / d, b * d);
    assert a / b * (b * d) == a * d && c / d * (b * d) == c * b;
    assert a * d == (spend * limit') as real && c * b == (spend' * limit) as real;
    Scaled(pct / 100.0, a / b, b);
  }

  lemma Quotient(a: real, b: real)
    requires b > 0.0
    ensures a / b * b == a
  {
  }

  lemma Scaled(x: real, y: real, factor: real)
    requires factor > 0.0
    ensures x <= y <==> x * factor <= y * factor
  {
    if x <= y { assert (y - x) * factor >= 0.0; } else { assert (x - y) * factor > 0.0; }
  }

  // ---- The scan ---------------------------------------------------------------------------

  predicate Warned(r: Reading) {
    r.counts && r.spendPct >= r.warnPct
  }

  predicate Critical(r: Reading) {
    r.counts && r.spendPct >= r.criticalPct
  }

  /** Thresholds are validated to be 1 or more. */
  ghost predicate Valid(readings: seq<Reading>) {
    forall i | 0 <= i < |readings| :: readings[i].warnPct >= 1.0 && readings[i].criticalPct >= 1.0
  }

  /** Critical, and ahead of every earlier budget over its warning threshold. */
  ghost predicate Leads(readings: seq<Reading>, i: int)
    requires 0 <= i < |readings|
  {
    Critical(readings[i]) && forall j | 0 <= j < i && Warned(readings[j]) :: readings[j].spendPct < readings[i].spendPct
  }

  datatype Verdict = Quiet | Warning(index: nat) | CriticalAlert(index: nat)

  /** What a verdict reports: a budget over the threshold in question, with the largest
      ratio of those over it. */
  ghost predicate Reports(readings: seq<Reading>, v: Verdict) {
    match v
    case Quiet => true
    case Warning(index) =>
      index < |readings| && Warned(readings[index])
      && forall i | 0 <= i < |readings| && (Warned(readings[i]) || Critical(readings[i])) ::
           readings[i].spendPct <= readings[index].spendPct
    case CriticalAlert(index) =>
      index < |readings| && Critical(readings[index])
      && forall i | 0 <= i < |readings| && Critical(readings[i]) :: readings[i].spendPct <= readings[index].spendPct
  }

  ghost predicate SomeLeads(readings: seq<Reading>, k: nat)
    requires k <= |readings|
  {
    exists i :: 0 <= i < k && Leads(readings, i)
  }

  ghost predicate Decided(readings: seq<Reading>, v: Verdict) {
    && (v.Quiet? <==> forall i | 0 <= i < |readings| :: !Warned(readings[i]) && !Critical(readings[i]))
    && (v.CriticalAlert? <==> SomeLeads(readings, |readings|))
    && Reports(readings, v)
  }

  /** At most one of the two alerts is raised, and one exactly when some budget has reached
      the lower of its thresholds.  It is the critical one exactly when a critical budget
      is ahead of all earlier ones over their warning thresholds. */
  method WorstBudget(readings: seq<Reading>) returns (verdict: Verdict)
    requires Valid(readings)
    ensures Decided(readings, verdict)
  {
    var worstCritical, worstWarning := false, false;
    var worst, worstSpendPct := 0, 0.0;
    for k := 0 to |readings|
      invariant !(worstCritical && worstWarning)
      invariant !worstCritical && !worstWarning ==> worstSpendPct == 0.0
      invariant worstCritical || worstWarning ==> worst < k && worstSpendPct == readings[worst].spendPct > 0.0
      invariant worstWarning ==> Warned(readings[worst])
      invariant worstCritical ==> Critical(readings[worst])
      invariant forall i | 0 <= i < k && Critical(readings[i]) :: readings[i].spendPct <= worstSpendPct
      invariant !worstCritical ==> forall i | 0 <= i < k && Warned(readings[i]) :: readings[i].spendPct <= worstSpendPct
      invariant worstCritical <==> SomeLeads(readings, k)
    {
      var r := readings[k];
      if r.counts {
        if r.spendPct >= r.criticalPct && r.spendPct > worstSpendPct {
          if !worstCritical { assert Leads(readings, k); }
          worstCritical, worstWarning, worst, worstSpendPct := true, false, k, r.spendPct;
        } else if r.spendPct >= r.warnPct && !worstCritical && r.spendPct > worstSpendPct {
          worstWarning, worst, worstSpendPct := true, k, r.spendPct;
        }
      }
    }
    verdict := if worstCritical then CriticalAlert(worst) else if worstWarning then Warning(worst) else Quiet;
  }

  /** Budgets with the same thresholds, the warning the lower of the two. */
  ghost predicate Shared(readings: seq<Reading>, warnPct: real, criticalPct: real) {
    warnPct <= criticalPct
    && forall i | 0 <= i < |readings| && readings[i].counts ::
         readings[i].warnPct == warnPct && readings[i].criticalPct == criticalPct
  }

  lemma {:induction false} SomeCriticalLeads(readings: seq<Reading>, warnPct: real, criticalPct: real, i: nat)
    requires Shared(readings, warnPct, criticalPct) && i < |readings| && Critical(readings[i])
    ensures exists k :: 0 <= k < |readings| && Leads(readings, k)
    decreases i
  {
    if !Leads(readings, i) {
      var j :| 0 <= j < i && Warned(readings[j]) && readings[j].spendPct >= readings[i].spendPct;
      SomeCriticalLeads(readings, warnPct, criticalPct, j);
    }
  }

  /** With shared thresholds a critical alert is raised exactly when some budget is
      critical, and whichever alert is raised reports the largest ratio of all. */
  lemma {:induction false} SharedThresholds(readings: seq<Reading>, warnPct: real, criticalPct: real, v: Verdict)
    requires Shared(readings, warnPct, criticalPct) && Decided(readings, v)
    ensures v.CriticalAlert? <==> exists i :: 0 <= i < |readings| && Critical(readings[i])
    ensures !v.Quiet? ==> forall i | 0 <= i < |readings| && readings[i].counts ::
                            readings[i].spendPct <= readings[v.index].spendPct
  {
    if exists i :: 0 <= i < |readings| && Critical(readings[i]) {
      var i :| 0 <= i < |readings| && Critical(readings[i]);
      SomeCriticalLeads(readings, warnPct, criticalPct, i);
    }
  }

  /** With thresholds of their own a critical budget may go unreported: this one is over
      its critical threshold, but an earlier one is further along and not critical yet. */
  lemma {:induction false} CriticalUnreported(v: Verdict)
    requires var readings := [Reading(true, 95.0, 50.0, 100.0), Reading(true, 85.0, 50.0, 80.0)];
             Decided(readings, v)
    ensures v == Warning(0)
  {
    var readings := [Reading(true, 95.0, 50.0, 100.0), Reading(true, 85.0, 50.0, 80.0)];
    assert !SomeLeads(readings, 2) by { assert !Leads(readings, 0) && !Leads(readings, 1); }
    assert Warned(readings[0]);
  }

  function ReadingOf(b: Budget, daily: bool): Reading {
    if daily then Daily(b) else Monthly(b)
  }

  function Readings(budgets: seq<Budget>, daily: bool): seq<Reading> {
    seq(|budgets|, i requires 0 <= i < |budgets| => ReadingOf(budgets[i], daily))
  }

  /** The two scans over the budgets of an instance. */
  method EvaluateBudgets(budgets: seq<Budget>) returns (monthly: Verdict, daily: Verdict)
    requires Valid(Readings(budgets, false)) && Valid(Readings(budgets, true))
    ensures Decided(Readings(budgets, false), monthly) && Decided(Readings(budgets, true), daily)
  {
    monthly := WorstBudget(Readings(budgets, false));
    daily := WorstBudget(Readings(budgets, true));
  }

  // ---- In the budgets' own terms ------------------------------------------------------------

  function Spent(b: Budget, daily: bool): int {
    if daily then b.currentDailySpendCents else b.currentSpendCents
  }

  /** The limit, or 0 for none. */
  function Limit(b: Budget, daily: bool): int {
    if !daily then b.monthlyLimitCents else if b.dailyLimitCents.Some? then b.dailyLimitCents.value else 0
  }

  function WarnAt(b: Budget, daily: bool): real {
    if !daily then b.warnPct else if b.dailyWarnPct.Some? then b.dailyWarnPct.value else 75.0
  }

  function CriticalAt(b: Budget, daily: bool): real {
    if !daily then b.criticalPct else if b.dailyCriticalPct.Some? then b.dailyCriticalPct.value else 90.0
  }

  /** The spend has reached a percentage of a positive limit. */
  predicate Over(b: Budget, daily: bool, pct: real) {
    Limit(b, daily) > 0 && Spent(b, daily) as real * 100.0 >= pct * Limit(b, daily) as real
  }

  /** Spent to no larger a part of its limit. */
  predicate NoFurther(b: Budget, a: Budget, daily: bool) {
    Spent(b, daily) * Limit(a, daily) <= Spent(a, daily) * Limit(b, daily)
  }

  lemma ReadingMeans(b: Budget, daily: bool)
    ensures Warned(ReadingOf(b, daily)) <==> Over(b, daily, WarnAt(b, daily))
    ensures Critical(ReadingOf(b, daily)) <==> Over(b, daily, CriticalAt(b, daily))
  {
    if Limit(b, daily) > 0 {
      RatiosCompare(Spent(b, daily), Limit(b, daily), 0, 1, WarnAt(b, daily));
      RatiosCompare(Spent(b, daily), Limit(b, daily), 0, 1, CriticalAt(b, daily));
    }
  }

  lemma PartsCompare(b: Budget, a: Budget, daily: bool)
    requires Limit(b, daily) > 0 && Limit(a, daily) > 0
    ensures ReadingOf(b, daily).spendPct <= ReadingOf(a, daily).spendPct <==> NoFurther(b, a, daily)
  {
    RatiosCompare(Spent(b, daily), Limit(b, daily), Spent(a, daily), Limit(a, daily), 0.0);
  }

  /** What the scans say of the budgets: quiet if no spend has reached a threshold; critical if
      one that has reached its critical threshold is spent further than all earlier ones over
      their warning thresholds; and the budget that is named is the one spent furthest, of
      those at their critical threshold or, for a warning, at either threshold. */
  lemma {:induction false} AlertMeans(budgets: seq<Budget>, daily: bool, v: Verdict)
    requires Decided(Readings(budgets, daily), v)
    ensures v.Quiet? <==> forall b | b in budgets ::
                            !Over(b, daily, WarnAt(b, daily)) && !Over(b, daily, CriticalAt(b, daily))
    ensures v.CriticalAlert? <==>
              exists i :: && 0 <= i < |budgets| && Over(budgets[i], daily, CriticalAt(budgets[i], daily))
                          && forall j | 0 <= j < i && Over(budgets[j], daily, WarnAt(budgets[j], daily)) ::
                               !NoFurther(budgets[i], budgets[j], daily)
    ensures v.CriticalAlert? ==>
              && v.index < |budgets| && Over(budgets[v.index], daily, CriticalAt(budgets[v.index], daily))
              && forall b | b in budgets && Over(b, daily, CriticalAt(b, daily)) ::
                   NoFurther(b, budgets[v.index], daily)
    ensures v.Warning? ==>
              && v.index < |budgets| && Over(budgets[v.index], daily, WarnAt(budgets[v.index], daily))
              && forall b | b in budgets
                            && (Over(b, daily, WarnAt(b, daily)) || Over(b, daily, CriticalAt(b, daily))) ::
                   NoFurther(b, budgets[v.index], daily)
  {
    var rs := Readings(budgets, daily);
    forall i | 0 <= i < |budgets|
      ensures Warned(rs[i]) <==> Over(budgets[i], daily, WarnAt(budgets[i], daily))
      ensures Critical(rs[i]) <==> Over(budgets[i], daily, CriticalAt(budgets[i], daily))
    {
      ReadingMeans(budgets[i], daily);
    }
    forall i, j | 0 <= i < |budgets| && 0 <= j < |budgets|
                  && Limit(budgets[i], daily) > 0 && Limit(budgets[j], daily) > 0
      ensures rs[i].spendPct <= rs[j].spendPct <==> NoFurther(budgets[i], budgets[j], daily)
    {
      PartsCompare(budgets[i], budgets[j], daily);
    }
    forall i | 0 <= i < |budgets|
      ensures Leads(rs, i) <==>
                && Over(budgets[i], daily, CriticalAt(budgets[i], daily))
                && forall j | 0 <= j < i && Over(budgets[j], daily, WarnAt(budgets[j], daily)) ::
                     !NoFurther(budgets[i], budgets[j], daily)
    {
    }
  }
}
