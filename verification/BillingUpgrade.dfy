/** What upgrades inside one paid period can cost. */
module BillingUpgrade {
  import opened Calendar
  import opened BillingModel
  import opened Options
  import Ops = BillingOps
  import opened BillingRuns

  /** The unused share of a running period lies between nothing and all of it. */
  lemma FractionInUnitInterval(sub: Subscription, now: int)
    requires sub.currentPeriodStart <= now
    ensures var f := Ops.Remaining(sub, now); 0 <= f.num <= f.den
  {
  }

  /** Rounding to whole paise moves an amount by at most half a paisa. */
  lemma RoundingError(x: Amount)
    requires x.den > 0
    ensures 2 * x.num - x.den < 2 * x.den * Round2(x) <= 2 * x.num + x.den
  {
    var n, d := 2 * x.num + x.den, 2 * x.den;
    assert d * (n / d) + n % d == n;
    assert d * (n / d) == 2 * x.den * Round2(x);
  }

  lemma MulMonotone(c: nat, a: int, b: int)
    requires a <= b
    ensures c * a <= c * b
  {
  }

  /** Whole paise around an amount are around its rounding too. */
  lemma RoundWithin(x: Amount, low: int, high: int)
    requires x.den > 0 && low * x.den <= x.num <= high * x.den
    ensures low <= Round2(x) <= high
  {
    hide Round2;
    RoundingError(x);
    NearestWithin(x.num, x.den, Round2(x), low, high);
  }

  lemma NearestWithin(n: int, d: nat, r: int, low: int, high: int)
    requires d > 0 && 2 * n - d < 2 * d * r <= 2 * n + d && low * d <= n <= high * d
    ensures low <= r <= high
  {
    if r < low {
      MulMonotone(d, r, low - 1);
    }
    if r > high {
      MulMonotone(d, high + 1, r);
    }
  }

  /** A share of a whole price gap never rounds above the gap. */
  lemma ShareWithinGap(gap: nat, f: Amount)
    requires f.den > 0 && 0 <= f.num <= f.den
    ensures 0 <= Round2(Amount(gap * f.num, f.den)) <= gap
  {
    hide Round2;
    MulMonotone(gap, 0, f.num);
    MulMonotone(gap, f.num, f.den);
    RoundWithin(Amount(gap * f.num, f.den), 0, gap);
  }

  // -------------------------------------------- upgrades on one cycle

  /** The event upgrades an active shop at once, on the cycle it has. */
  predicate UpgradesNow(a: Account, e: Event, plans: Catalog) {
    && Ops.HasStatus(a, Active)
    && e.plans == plans && e.action.ChangePlan?
    && a.sub.value.planId in plans && e.action.change.planId in plans
    && e.action.change.cycle.GetOr(a.sub.value.cycle) == a.sub.value.cycle
    && Ops.IsUpgrade(a.sub.value, plans[a.sub.value.planId], plans[e.action.change.planId], a.sub.value.cycle)
    && Ops.ChangePlan(a, e.action.change, e.plans, e.settings, e.now).Ok?
    && Step(a, e).sub.value.planId == e.action.change.planId
  }

  predicate AllUpgrades(a: Account, trace: seq<Event>, plans: Catalog)
    decreases |trace|
  {
    trace == [] || (UpgradesNow(a, trace[0], plans) && AllUpgrades(Step(a, trace[0]), trace[1..], plans))
  }

  function CurrentPrice(a: Account, plans: Catalog): nat
    requires a.sub.Some? && a.sub.value.planId in plans
  {
    PriceFor(plans[a.sub.value.planId], a.sub.value.cycle)
  }

  function Billed(invoices: seq<Invoice>): int {
    if invoices == [] then 0 else Billed(invoices[..|invoices| - 1]) + invoices[|invoices| - 1].amount
  }

  lemma BilledAppend(invoices: seq<Invoice>, row: Invoice)
    ensures Billed(invoices + [row]) == Billed(invoices) + row.amount
  {
    assert (invoices + [row])[..|invoices|] == invoices;
  }

  /** A cost of at most the share `f` of the gap, give or take half a paisa. */
  predicate WithinShare(cost: int, gap: int, f: Amount) {
    2 * f.den * cost <= 2 * gap * f.num + f.den
  }

  /** One upgrade keeps the period and bills at most the price gap, and at most the unused share rounded. */
  lemma UpgradeCharge(a: Account, e: Event, plans: Catalog)
    requires Inv(a, e.now) && UpgradesNow(a, e, plans)
    ensures var r, f := Step(a, e), Ops.Remaining(a.sub.value, e.now);
            && r.sub == Some(a.sub.value.(planId := e.action.change.planId, pendingPlanId := None, pendingCycle := None))
            && r.sub.value.planId in plans
            && var gap, cost := CurrentPrice(r, plans) - CurrentPrice(a, plans), Billed(r.invoices) - Billed(a.invoices);
               gap > 0 && 0 <= cost <= gap && WithinShare(cost, gap, f)
  {
    hide AddCycle, Inv, InvoicesOk, Round2, Billed, Step, Ops.ChangePlan, PriceFor, Ops.Remaining, Ops.UpgradeAmount,
         Billable, Ops.IsUpgrade, WithinShare;
    var sub, dto := a.sub.value, e.action.change;
    var plan, next := plans[sub.planId], plans[dto.planId];
    var f := Ops.Remaining(sub, e.now);
    PeriodStarted(a, e.now);
    FractionInUnitInterval(sub, e.now);
    var gap := PriceFor(next, sub.cycle) - PriceFor(plan, sub.cycle);
    GapIsPositive(sub, plan, next);
    ShareWithinGap(gap, f);
    ShareRounded(gap, f);
    var x := Ops.UpgradeAmount(sub, plan, next, sub.cycle, e.now);
    UpgradeAmountIsShare(sub, plan, next, e.now);
    BilledAppend(a.invoices, NewInvoice(Upgrade, sub.cycle, e.now, sub.currentPeriodEnd, Round2(x)));
    UpgradeStepShape(a, e, plans);
    if !Billable(x) {
      assert a.invoices + [] == a.invoices;
    }
  }

  lemma ShareRounded(gap: nat, f: Amount)
    requires 0 <= f.num && 0 < f.den
    ensures WithinShare(Round2(Amount(gap * f.num, f.den)), gap, f) && WithinShare(0, gap, f)
  {
    hide Round2;
    RoundingError(Amount(gap * f.num, f.den));
    MulMonotone(gap, 0, f.num);
    assert 2 * (gap * f.num) == 2 * gap * f.num;
  }

  lemma PeriodStarted(a: Account, now: int)
    requires Inv(a, now) && a.sub.Some?
    ensures a.sub.value.currentPeriodStart <= now
  {
    hide InvoicesOk;
  }

  lemma GapIsPositive(sub: Subscription, plan: Plan, next: Plan)
    requires Ops.IsUpgrade(sub, plan, next, sub.cycle)
    ensures PriceFor(next, sub.cycle) > PriceFor(plan, sub.cycle)
  {
  }

  lemma UpgradeAmountIsShare(sub: Subscription, plan: Plan, next: Plan, now: int)
    requires PriceFor(next, sub.cycle) > PriceFor(plan, sub.cycle)
    ensures var f := Ops.Remaining(sub, now);
            Ops.UpgradeAmount(sub, plan, next, sub.cycle, now)
            == Amount((PriceFor(next, sub.cycle) - PriceFor(plan, sub.cycle)) * f.num, f.den)
  {
    hide Ops.Remaining, PriceFor;
    var f := Ops.Remaining(sub, now);
    var p, q := PriceFor(plan, sub.cycle), PriceFor(next, sub.cycle);
    assert q * f.num - p * f.num == (q - p) * f.num;
    MulMonotone(f.num, 0, q - p);
  }

  lemma UpgradeStepShape(a: Account, e: Event, plans: Catalog)
    requires UpgradesNow(a, e, plans)
    ensures var sub, dto := a.sub.value, e.action.change;
            var x := Ops.UpgradeAmount(sub, plans[sub.planId], plans[dto.planId], sub.cycle, e.now);
            Step(a, e) == Account(
              Some(sub.(planId := dto.planId, pendingPlanId := None, pendingCycle := None)),
              a.invoices +
              if Billable(x) then [NewInvoice(Upgrade, sub.cycle, e.now, sub.currentPeriodEnd, Round2(x))] else [])
  {
    hide AddCycle, Ops.UpgradeAmount, Round2, Ops.IsUpgrade, Billable;
    assert Ops.AppliesNow(a.sub.value, plans[a.sub.value.planId], plans[e.action.change.planId], a.sub.value.cycle,
                          e.action.change.applyNow, e.settings);
  }

  /** Any number of upgrades inside one period bills at most the final price less the first. */
  lemma {:induction false} UpgradesAreBounded(a: Account, clock: int, trace: seq<Event>, plans: Catalog)
    requires Inv(a, clock) && Timely(clock, trace) && AllUpgrades(a, trace, plans)
    requires a.sub.Some? && a.sub.value.planId in plans
    ensures var r := Run(a, trace);
            && r.sub.Some? && r.sub.value.planId in plans
            && r.sub.value.currentPeriodStart == a.sub.value.currentPeriodStart
            && r.sub.value.currentPeriodEnd == a.sub.value.currentPeriodEnd
            && 0 <= Billed(r.invoices) - Billed(a.invoices) <= CurrentPrice(r, plans) - CurrentPrice(a, plans)
    decreases |trace|
  {
    hide Inv, Step, UpgradesNow, Billed;
    if trace != [] {
      InvLater(a, clock, trace[0].now);
      StepKeeps(a, trace[0]);
      UpgradeCharge(a, trace[0], plans);
      UpgradesAreBounded(Step(a, trace[0]), trace[0].now, trace[1..], plans);
    }
  }

  /** Nor more than the share left at the first upgrade, plus half a paisa for each invoice. */
  lemma {:induction false} UpgradesAreProrated(a: Account, clock: int, trace: seq<Event>, plans: Catalog)
    requires Inv(a, clock) && Timely(clock, trace) && AllUpgrades(a, trace, plans)
    requires a.sub.Some? && a.sub.value.planId in plans && trace != []
    ensures var r, f := Run(a, trace), Ops.Remaining(a.sub.value, trace[0].now);
            && r.sub.Some? && r.sub.value.planId in plans
            && CurrentPrice(r, plans) >= CurrentPrice(a, plans)
            && 2 * f.den * (Billed(r.invoices) - Billed(a.invoices))
               <= 2 * (CurrentPrice(r, plans) - CurrentPrice(a, plans)) * f.num + |trace| * f.den
    decreases |trace|
  {
    hide Inv, Step, UpgradesNow, Billed, CurrentPrice, Ops.Remaining;
    InvLater(a, clock, trace[0].now);
    StepKeeps(a, trace[0]);
    UpgradeCharge(a, trace[0], plans);
    var next := Step(a, trace[0]);
    var f := Ops.Remaining(a.sub.value, trace[0].now);
    if |trace| == 1 {
      assert Run(a, trace) == Run(next, trace[1..]) == next;
    } else {
      UpgradesAreProrated(next, trace[0].now, trace[1..], plans);
      var g := Ops.Remaining(next.sub.value, trace[1].now);
      var r := Run(next, trace[1..]);
      RemainingShrinks(a.sub.value, next.sub.value, trace[0].now, trace[1].now);
      AddShares(f.den, f.num, g.num, Billed(next.invoices) - Billed(a.invoices),
                Billed(r.invoices) - Billed(next.invoices), CurrentPrice(next, plans) - CurrentPrice(a, plans),
                CurrentPrice(r, plans) - CurrentPrice(next, plans), |trace| - 1);
    }
  }

  lemma RemainingShrinks(s: Subscription, t: Subscription, now: int, later: int)
    requires now <= later
    requires s.currentPeriodStart == t.currentPeriodStart && s.currentPeriodEnd == t.currentPeriodEnd
    ensures var f, g := Ops.Remaining(s, now), Ops.Remaining(t, later); f.den == g.den && g.num <= f.num
  {
  }

  lemma AddShares(den: int, f: int, g: int, cost: int, rest: int, gap: int, more: int, n: int)
    requires 0 <= g <= f && more >= 0
    requires 2 * den * cost <= 2 * gap * f + den && 2 * den * rest <= 2 * more * g + n * den
    ensures 2 * den * (cost + rest) <= 2 * (gap + more) * f + (n + 1) * den
  {
    MulMonotone(more, g, f);
    assert 2 * den * (cost + rest) == 2 * den * cost + 2 * den * rest;
    assert 2 * (gap + more) * f == 2 * gap * f + 2 * (more * f);
    assert 2 * more * g == 2 * (more * g);
    assert (n + 1) * den == n * den + den;
  }

  // ------------------------------------------- upgrade to another cycle

  /** An upgrade to another cycle starts it now and bills the new price less at most the old one. */
  lemma NewCycleCharge(sub: Subscription, plan: Plan, next: Plan, cycle: Cycle, now: int)
    requires sub.currentPeriodStart <= now && cycle != sub.cycle
    ensures var x := Ops.UpgradeAmount(sub, plan, next, cycle, now);
            PriceFor(next, cycle) - PriceFor(plan, sub.cycle) <= Round2(x) <= PriceFor(next, cycle)
  {
    hide PriceFor;
    FractionInUnitInterval(sub, now);
    var f := Ops.Remaining(sub, now);
    var p, q := PriceFor(plan, sub.cycle), PriceFor(next, cycle);
    var x := Ops.UpgradeAmount(sub, plan, next, cycle, now);
    MulMonotone(p, f.num, f.den);
    MulMonotone(p, 0, f.num);
    MulMonotone(f.den, 0, q);
    assert q * f.den - p * f.den == (q - p) * f.den;
    RoundWithin(x, q - p, q);
  }
}
