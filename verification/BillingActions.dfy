/** What each administrator's action, and each payment retry, leaves in the record's own fields. */
module BillingActions {
  import opened Calendar
  import opened BillingModel
  import opened Options
  import Ops = BillingOps
  import opened BillingRuns
  import opened BillingOutcomes

  // ------------------------------------------------------------- assigning

  predicate Assignable(a: Account, e: Event) {
    && e.action.Assign? && a.sub.None?
    && e.action.assign.planId in e.plans && e.plans[e.action.assign.planId].isActive
  }

  /** A shop gets one subscription, to a plan that is on sale; any other assignment changes nothing. */
  lemma AssignmentRefused(a: Account, e: Event)
    requires Known(a, e.plans) && e.action.Assign? && !Assignable(a, e)
    ensures Step(a, e) == a
  {
  }

  lemma AssignmentStarts(a: Account, e: Event)
    requires Assignable(a, e)
    ensures var dto, r := e.action.assign, Step(a, e);
            && r.sub.Some?
            && var s := r.sub.value;
               && s.planId == dto.planId && s.cycle == dto.cycle && s.autoRenew == dto.autoRenew
               && s.currentPeriodStart == e.now && !s.automationPaused && !s.cancelAtPeriodEnd && s.pendingPlanId.None?
  {
    hide AddCycle;
  }

  /** Days of a trial before anything is billed. */
  lemma TrialStarts(a: Account, e: Event)
    requires Assignable(a, e) && e.action.assign.startTrial && e.plans[e.action.assign.planId].trialDays > 0
    ensures var r, end := Step(a, e), e.now + e.plans[e.action.assign.planId].trialDays * MS_PER_DAY;
            && r.invoices == a.invoices && r.sub.Some? && r.sub.value.status == Trial
            && r.sub.value.currentPeriodEnd == end && r.sub.value.trialEndsAt == Some(end)
  {
    hide AddCycle;
  }

  /** Otherwise the first cycle starts, with an invoice at the plan's price that is paid, or pending with grace. */
  lemma FirstTermStarts(a: Account, e: Event, price: int)
    requires Assignable(a, e) && Costs(e.plans[e.action.assign.planId], e.action.assign.cycle, price)
    requires !e.action.assign.startTrial || e.plans[e.action.assign.planId].trialDays == 0
    ensures var dto, r, n := e.action.assign, Step(a, e), |a.invoices|;
            && r.sub.Some? && r.sub.value.currentPeriodEnd == AddCycle(e.now, dto.cycle)
            && (r.sub.value.status == Active <==> price == 0 || dto.markPaid)
            && (price == 0 ==> r.invoices == a.invoices)
            && (price > 0 ==>
                  && |r.invoices| == n + 1 && r.invoices[..n] == a.invoices
                  && var row := r.invoices[n];
                     && row.kind == Initial && row.cycle == dto.cycle && row.amount == price
                     && row.periodStart == e.now && row.periodEnd == AddCycle(e.now, dto.cycle)
                     && row.status == if dto.markPaid then Paid else Open)
            && (price > 0 && !dto.markPaid ==>
                  && r.sub.value.status == PaymentPending
                  && r.sub.value.graceEndsAt == Some(e.now + e.settings.graceDays * MS_PER_DAY))
  {
    hide AddCycle, PriceFor, Costs;
    PriceIs(e.plans[e.action.assign.planId], e.action.assign.cycle, price);
  }

  // --------------------------------------------------------- changing plan

  /** A month of `q` on cycle `d` costs more than a month of `p` on `c` by over half a paisa: 30 days, a twelfth of a year. */
  predicate Dearer(p: Plan, c: Cycle, q: Plan, d: Cycle) {
    match c
    case Daily =>
      (match d
       case Daily => q.dailyPrice > p.dailyPrice
       case Monthly => q.monthlyPrice > 30 * p.dailyPrice
       case Yearly => q.yearlyPrice > 360 * p.dailyPrice + 6)
    case Monthly =>
      (match d
       case Daily => 30 * q.dailyPrice > p.monthlyPrice
       case Monthly => q.monthlyPrice > p.monthlyPrice
       case Yearly => q.yearlyPrice > 12 * p.monthlyPrice + 6)
    case Yearly =>
      (match d
       case Daily => 360 * q.dailyPrice > p.yearlyPrice + 6
       case Monthly => 12 * q.monthlyPrice > p.yearlyPrice + 6
       case Yearly => q.yearlyPrice > p.yearlyPrice + 6)
  }

  /** Upgrades and downgrades, by the literal prices of all nine pairs of cycles. */
  lemma UpgradeIsDearer(sub: Subscription, plan: Plan, next: Plan, cycle: Cycle)
    ensures Ops.IsUpgrade(sub, plan, next, cycle) <==> Dearer(plan, sub.cycle, next, cycle)
    ensures Ops.IsDowngrade(sub, plan, next, cycle) <==> Dearer(next, cycle, plan, sub.cycle)
  {
  }

  predicate Changeable(a: Account, e: Event) {
    && e.action.ChangePlan? && a.sub.Some? && a.sub.value.planId in e.plans && a.sub.value.status in {Trial, Active}
    && e.action.change.planId in e.plans && e.plans[e.action.change.planId].isActive
    && !(e.action.change.planId == a.sub.value.planId && NextCycle(a, e) == a.sub.value.cycle)
  }

  function NextCycle(a: Account, e: Event): Cycle
    requires e.action.ChangePlan? && a.sub.Some?
  {
    e.action.change.cycle.GetOr(a.sub.value.cycle)
  }

  predicate IsDearer(a: Account, e: Event)
    requires Changeable(a, e)
  {
    Dearer(e.plans[a.sub.value.planId], a.sub.value.cycle, e.plans[e.action.change.planId], NextCycle(a, e))
  }

  predicate IsCheaper(a: Account, e: Event)
    requires Changeable(a, e)
  {
    Dearer(e.plans[e.action.change.planId], NextCycle(a, e), e.plans[a.sub.value.planId], a.sub.value.cycle)
  }

  /** The change of an active shop waits for the renewal when asked to, by the settings otherwise, and always when it
      is no upgrade and starts another cycle. */
  predicate Waits(a: Account, e: Event)
    requires Changeable(a, e)
  {
    && a.sub.value.status == Active
    && (|| e.action.change.applyNow == Some(false)
        || (!IsDearer(a, e) && NextCycle(a, e) != a.sub.value.cycle)
        || (e.action.change.applyNow.None? && IsDearer(a, e) && !e.settings.upgradeProratedNow)
        || (e.action.change.applyNow.None? && IsCheaper(a, e) && !e.settings.downgradeNow))
  }

  lemma ChangeRefused(a: Account, e: Event)
    requires Known(a, e.plans) && e.action.ChangePlan? && !Changeable(a, e)
    ensures Step(a, e) == a
  {
    hide AddCycle, Ops.AppliesNow, Ops.IsUpgrade, Ops.UpgradeAmount;
  }

  /** A change that waits is noted and nothing else happens. */
  lemma ChangeScheduled(a: Account, e: Event)
    requires Changeable(a, e) && Waits(a, e)
    ensures var s := a.sub.value;
            Step(a, e) == a.(sub := Some(s.(pendingPlanId := Some(e.action.change.planId),
                                            pendingCycle := Some(NextCycle(a, e)))))
  {
    UpgradeIsDearer(a.sub.value, e.plans[a.sub.value.planId], e.plans[e.action.change.planId], NextCycle(a, e));
    DearerOneWay(e.plans[a.sub.value.planId], a.sub.value.cycle, e.plans[e.action.change.planId], NextCycle(a, e));
    hide AddCycle, Dearer, Ops.IsUpgrade, Ops.IsDowngrade, Ops.UpgradeAmount;
  }

  lemma DearerOneWay(p: Plan, c: Cycle, q: Plan, d: Cycle)
    ensures !(Dearer(p, c, q, d) && Dearer(q, d, p, c))
  {
  }

  /** Any other change is made at once; only an upgrade of an active shop can bill or move the period. */
  lemma ChangeMade(a: Account, e: Event)
    requires Changeable(a, e) && !Waits(a, e)
    ensures var s, r, cycle := a.sub.value, Step(a, e), NextCycle(a, e);
            && r.sub.Some? && r.sub.value.planId == e.action.change.planId && r.sub.value.cycle == cycle
            && r.sub.value.pendingPlanId.None? && r.sub.value.pendingCycle.None? && r.sub.value.status == s.status
            && (!(s.status == Active && IsDearer(a, e)) ==>
                  && r.invoices == a.invoices && r.sub.value.currentPeriodStart == s.currentPeriodStart
                  && r.sub.value.currentPeriodEnd == s.currentPeriodEnd)
            && (s.status == Active && IsDearer(a, e) ==>
                  if cycle == s.cycle then
                    r.sub.value.currentPeriodStart == s.currentPeriodStart && r.sub.value.currentPeriodEnd == s.currentPeriodEnd
                  else r.sub.value.currentPeriodStart == e.now && r.sub.value.currentPeriodEnd == AddCycle(e.now, cycle))
  {
    UpgradeIsDearer(a.sub.value, e.plans[a.sub.value.planId], e.plans[e.action.change.planId], NextCycle(a, e));
    DearerOneWay(e.plans[a.sub.value.planId], a.sub.value.cycle, e.plans[e.action.change.planId], NextCycle(a, e));
    hide AddCycle, Dearer, Ops.IsUpgrade, Ops.IsDowngrade, Ops.UpgradeAmount, Round2, Billable;
  }

  /** The exact cost of an upgrade in fractions of a paisa: the new price less the unused share of the old one, the
      new price itself only for the unused share unless a new cycle starts; nothing below zero. */
  predicate UpgradeCosts(s: Subscription, was: int, price: int, sameCycle: bool, now: int, num: int, den: int) {
    && den == s.currentPeriodEnd - s.currentPeriodStart
    && var left := if now < s.currentPeriodEnd then s.currentPeriodEnd - now else 0;
       var owed := (if sameCycle then price * left else price * den) - was * left;
       num == if owed > 0 then owed else 0
  }

  /** An upgrade is invoiced at its exact cost to the nearest paisa, and not at all up to half a paisa. */
  lemma UpgradeIsBilled(a: Account, e: Event, was: int, price: int, num: int, den: int)
    requires Inv(a, e.now) && Changeable(a, e) && !Waits(a, e) && a.sub.value.status == Active && IsDearer(a, e)
    requires Costs(e.plans[a.sub.value.planId], a.sub.value.cycle, was)
    requires Costs(e.plans[e.action.change.planId], NextCycle(a, e), price)
    requires UpgradeCosts(a.sub.value, was, price, NextCycle(a, e) == a.sub.value.cycle, e.now, num, den)
    ensures var r, n := Step(a, e), |a.invoices|;
            if 2 * num <= den then r.invoices == a.invoices
            else
              && |r.invoices| == n + 1 && r.invoices[..n] == a.invoices
              && var row := r.invoices[n];
                 && row.kind == Upgrade && row.status == Open && row.cycle == NextCycle(a, e)
                 && row.periodStart == e.now && row.periodEnd == r.sub.value.currentPeriodEnd
                 && 2 * num - den < 2 * (den * row.amount) <= 2 * num + den
  {
    PeriodNotEmpty(a, e.now);
    BilledShape(a, e);
    PriceIs(e.plans[a.sub.value.planId], a.sub.value.cycle, was);
    PriceIs(e.plans[e.action.change.planId], NextCycle(a, e), price);
    AmountIs(a.sub.value, e.plans[a.sub.value.planId], e.plans[e.action.change.planId], NextCycle(a, e), e.now, num, den);
    RoundedTo(num, den);
    hide AddCycle, Round2, PriceFor, Costs, Inv, Step, IsDearer, Waits, UpgradeCosts, Ops.UpgradeAmount, Changeable;
    assert a.invoices + [] == a.invoices;
  }

  lemma AmountIs(s: Subscription, plan: Plan, next: Plan, cycle: Cycle, now: int, num: int, den: int)
    requires s.currentPeriodStart < s.currentPeriodEnd
    requires UpgradeCosts(s, PriceFor(plan, s.cycle), PriceFor(next, cycle), cycle == s.cycle, now, num, den)
    ensures Ops.UpgradeAmount(s, plan, next, cycle, now) == Amount(num, den)
  {
    hide PriceFor;
  }

  lemma BilledShape(a: Account, e: Event)
    requires Changeable(a, e) && !Waits(a, e) && a.sub.value.status == Active && IsDearer(a, e)
    ensures var s, r, cycle := a.sub.value, Step(a, e), NextCycle(a, e);
            var x := Ops.UpgradeAmount(s, e.plans[s.planId], e.plans[e.action.change.planId], cycle, e.now);
            && r.sub.Some?
            && r.invoices == a.invoices + if Billable(x)
                 then [NewInvoice(Upgrade, cycle, e.now, r.sub.value.currentPeriodEnd, Round2(x))] else []
  {
    UpgradeIsDearer(a.sub.value, e.plans[a.sub.value.planId], e.plans[e.action.change.planId], NextCycle(a, e));
    hide AddCycle, Dearer, Ops.IsUpgrade, Ops.IsDowngrade, Ops.UpgradeAmount, Round2, Billable;
  }

  lemma PeriodNotEmpty(a: Account, now: int)
    requires Inv(a, now) && a.sub.Some?
    ensures a.sub.value.currentPeriodStart < a.sub.value.currentPeriodEnd
  {
    hide InvoicesOk;
  }

  lemma RoundedTo(num: int, den: int)
    requires den > 0
    ensures 2 * num - den < 2 * (den * Round2(Amount(num, den))) <= 2 * num + den
  {
    var n, d := 2 * num + den, 2 * den;
    assert d * (n / d) + n % d == n;
    assert d * (n / d) == 2 * (den * Round2(Amount(num, den)));
  }

  // --------------------------------------------------- dates and intentions

  /** Days are added to the running period, or from now on when an expired one is over, which reactivates the shop. */
  lemma ExtensionAdds(a: Account, e: Event)
    requires Known(a, e.plans) && e.action.Extend?
    ensures var r := Step(a, e);
            if a.sub.Some? && a.sub.value.status in {Trial, Active, Expired} then
              var s := a.sub.value;
              var from := if s.status == Expired && s.currentPeriodEnd < e.now then e.now else s.currentPeriodEnd;
              && r.invoices == a.invoices && r.sub.Some?
              && r.sub.value.currentPeriodEnd == from + e.action.days * MS_PER_DAY
              && r.sub.value.currentPeriodStart == s.currentPeriodStart
              && (r.sub.value.status == Trial <==> s.status == Trial) && r.sub.value.status in {Trial, Active}
              && (s.status == Trial ==> r.sub.value.trialEndsAt == Some(r.sub.value.currentPeriodEnd))
            else r == a
  {
  }

  /** More grace, from the old deadline or from now, and an overdue shop is pending again. */
  lemma GraceAdds(a: Account, e: Event)
    requires Inv(a, e.now) && Known(a, e.plans) && e.action.ExtendGrace?
    ensures var r := Step(a, e);
            if a.sub.Some? && a.sub.value.status in {PaymentPending, PastDue} then
              var s := a.sub.value;
              var from := if s.graceEndsAt.Some? && s.graceEndsAt.value > e.now then s.graceEndsAt.value else e.now;
              r == a.(sub := Some(s.(status := PaymentPending, pastDueSince := None,
                                     graceEndsAt := Some(from + e.action.days * MS_PER_DAY))))
            else r == a
  {
    hide InvoicesOk;
  }

  /** Cancelled at once, nothing stays payable and nothing paid is touched. */
  lemma CancelEnds(a: Account, e: Event)
    requires Known(a, e.plans) && e.action.Cancel? && a.sub.Some? && a.sub.value.status != Cancelled
    requires !(e.action.periodEnd && a.sub.value.status in {Trial, Active})
    ensures var r, s := Step(a, e), a.sub.value;
            && r.sub.Some? && r.sub.value.status == Cancelled && r.sub.value.cancelledAt == Some(e.now)
            && !r.sub.value.cancelAtPeriodEnd && r.sub.value.pendingPlanId.None?
            && r.sub.value.graceEndsAt.None? && r.sub.value.pastDueSince.None?
            && |r.invoices| == |a.invoices|
            && forall k :: 0 <= k < |a.invoices| ==>
                 r.invoices[k] == if a.invoices[k].status in {Open, Failed}
                                  then a.invoices[k].(status := Void, nextRetryAt := None) else a.invoices[k]
  {
  }

  /** Cancelled for the end of the period, the shop goes on as it is, without its scheduled change. */
  lemma CancelWaits(a: Account, e: Event)
    requires Known(a, e.plans) && e.action.Cancel? && e.action.periodEnd
    requires a.sub.Some? && a.sub.value.status in {Trial, Active}
    ensures Step(a, e) == a.(sub := Some(a.sub.value.(cancelAtPeriodEnd := true, pendingPlanId := None, pendingCycle := None)))
  {
  }

  lemma CancelRefused(a: Account, e: Event)
    requires Known(a, e.plans) && e.action.Cancel? && (a.sub.Some? ==> a.sub.value.status == Cancelled)
    ensures Step(a, e) == a
  {
  }

  /** Resuming undoes a cancellation at the end of the period, as long as the period still runs. */
  lemma ResumeUndoes(a: Account, cancel: Event, resume: Event)
    requires Known(a, cancel.plans) && Known(a, resume.plans) && a.sub.Some? && a.sub.value.status in {Trial, Active}
    requires cancel.action == Action.Cancel(true) && resume.action.Resume?
    ensures Step(Step(a, cancel), resume)
         == a.(sub := Some(a.sub.value.(cancelAtPeriodEnd := false, pendingPlanId := None, pendingCycle := None)))
    ensures !a.sub.value.cancelAtPeriodEnd ==> Step(a, resume) == a
  {
  }

  /** Dropping a scheduled change undoes it. */
  lemma DroppingUndoes(a: Account, change: Event, drop: Event)
    requires Changeable(a, change) && Waits(a, change) && Known(a, drop.plans) && drop.action.CancelScheduledChange?
    ensures Step(Step(a, change), drop) == a.(sub := Some(a.sub.value.(pendingPlanId := None, pendingCycle := None)))
    ensures a.sub.value.pendingPlanId.None? ==> Step(a, drop) == a
  {
    ChangeScheduled(a, change);
    hide Waits;
  }

  // ------------------------------------------------------------- overrides

  /** A suspension by hand holds the shop for the days given, or until it is released, and touches nothing else. */
  lemma SuspensionHolds(a: Account, e: Event)
    requires Known(a, e.plans) && e.action.ForceSuspend? && a.sub.Some?
    ensures Step(a, e) == a.(sub := Some(a.sub.value.(
              status := Suspended, automationPaused := true,
              pausedUntil := if e.action.pause.Some? then Some(e.now + e.action.pause.value * MS_PER_DAY) else None)))
  {
  }

  /** A reactivation by hand serves the shop whatever it owes, in a new period if the old one is over. */
  lemma ReactivationServes(a: Account, e: Event)
    requires Known(a, e.plans) && e.action.ForceReactivate? && a.sub.Some?
    ensures var s, r := a.sub.value, Step(a, e);
            && r.invoices == a.invoices && r.sub.Some? && r.sub.value.status == Active
            && r.sub.value.automationPaused && !r.sub.value.cancelAtPeriodEnd && r.sub.value.cancelledAt.None?
            && r.sub.value.graceEndsAt.None? && r.sub.value.pastDueSince.None?
            && r.sub.value.pausedUntil == (if e.action.pause.Some? then Some(e.now + e.action.pause.value * MS_PER_DAY) else None)
            && (if s.currentPeriodEnd <= e.now then
                  r.sub.value.currentPeriodStart == e.now && r.sub.value.currentPeriodEnd == AddCycle(e.now, s.cycle)
                else
                  r.sub.value.currentPeriodStart == s.currentPeriodStart && r.sub.value.currentPeriodEnd == s.currentPeriodEnd)
  {
    hide AddCycle;
  }

  /** Releasing an override hands the shop back unchanged; a billing run leaves a held shop alone. */
  lemma OverrideReleases(a: Account, e: Event)
    requires Known(a, e.plans) && e.action.ReleaseOverride? && a.sub.Some?
    ensures Step(a, e) == if a.sub.value.automationPaused
                          then a.(sub := Some(a.sub.value.(automationPaused := false, pausedUntil := None))) else a
  {
  }

  lemma OverrideHolds(a: Account, e: Event)
    requires e.action.Automation? && a.sub.Some? && a.sub.value.automationPaused
    requires a.sub.value.pausedUntil.Some? ==> e.now < a.sub.value.pausedUntil.value
    ensures Step(a, e) == a
  {
    hide Ops.Lifecycle;
  }

  /** A run never selects suspended, expired or cancelled shops, held or not. */
  lemma RunSkips(a: Account, e: Event)
    requires e.action.Automation? && (a.sub.Some? ==> a.sub.value.status in {Suspended, Expired, Cancelled})
    ensures Step(a, e) == a
  {
    hide Ops.Process;
  }

  lemma PreferenceStored(a: Account, e: Event)
    requires Known(a, e.plans) && e.action.SetAutoRenew?
    ensures Step(a, e) == if a.sub.Some? then a.(sub := Some(a.sub.value.(autoRenew := e.action.autoRenew))) else a
  {
  }

  // --------------------------------------------------------------- refunds

  /** A refund is made exactly if there is that much left of a paid invoice, and is a whole number of paise above zero. */
  lemma RefundMade(a: Account, e: Event)
    requires Known(a, e.plans) && e.action.Refund?
    ensures var k, value, r := e.action.invoice, e.action.value, Step(a, e);
            if k < |a.invoices| && a.invoices[k].status in {Paid, PartiallyRefunded}
               && 0 < value <= a.invoices[k].amount - a.invoices[k].refundedAmount
            then
              var i := a.invoices[k];
              r == a.(invoices := a.invoices[k := i.(
                   refunds := i.refunds + [value], refundedAmount := i.refundedAmount + value,
                   status := if i.refundedAmount + value == i.amount then Refunded else PartiallyRefunded)])
            else r == a
  {
  }

  // --------------------------------------------------------------- retries

  /** A billing run on a shop with a payment pending, with no override. */
  predicate Pending(a: Account, e: Event) {
    && e.action.Automation? && a.sub.Some? && a.sub.value.planId in e.plans
    && a.sub.value.status == PaymentPending && !a.sub.value.automationPaused && a.sub.value.graceEndsAt.Some?
  }

  /** A retry that goes through pays that invoice alone and makes the shop active for its period. */
  lemma RetryRecovers(a: Account, e: Event, k: nat)
    requires Pending(a, e) && RetryableFirst(a.invoices, k, e.now, e.settings.retryAttempts)
    requires e.action.gateway.Connected? && e.action.gateway.retryOk
    ensures var i, r := a.invoices[k], Step(a, e);
            && PaidOnly(a.invoices, r.invoices, k) && r.sub.Some? && r.sub.value.status == Active
            && r.sub.value.graceEndsAt.None? && r.sub.value.pastDueSince.None?
            && (e.now < i.periodEnd ==>
                  r.sub.value.currentPeriodStart == i.periodStart && r.sub.value.currentPeriodEnd == i.periodEnd)
            && (i.periodEnd <= e.now ==>
                  r.sub.value.currentPeriodStart == e.now && r.sub.value.currentPeriodEnd == AddCycle(e.now, i.cycle))
  {
    hide AddCycle;
    assert OldestDue(a.invoices, e.now) == k;
  }

  /** A retry that is declined within the grace period is counted; another follows while attempts are left. */
  lemma RetryDeclined(a: Account, e: Event, k: nat)
    requires Pending(a, e) && RetryableFirst(a.invoices, k, e.now, e.settings.retryAttempts)
    requires e.action.gateway.Connected? && !e.action.gateway.retryOk && e.now < a.sub.value.graceEndsAt.value
    ensures var i := a.invoices[k];
            Step(a, e) == a.(invoices := a.invoices[k := i.(
              attemptCount := i.attemptCount + 1,
              nextRetryAt := if i.attemptCount < e.settings.retryAttempts
                             then Some(e.now + e.settings.retryIntervalDays * MS_PER_DAY) else None)])
  {
    hide AddCycle;
    assert OldestDue(a.invoices, e.now) == k;
  }

  /** Nothing to charge and grace left: the run waits. */
  lemma RetryWaits(a: Account, e: Event)
    requires Pending(a, e) && e.now < a.sub.value.graceEndsAt.value
    requires e.action.gateway.NoGateway?
             || forall k: nat :: !RetryableFirst(a.invoices, k, e.now, e.settings.retryAttempts)
    ensures Step(a, e) == a
  {
    hide AddCycle;
    var hint := RetryableFirst(a.invoices, OldestDue(a.invoices, e.now), e.now, e.settings.retryAttempts);
  }

  /** When the grace is over unpaid, every open invoice has failed and the shop is overdue from this run on. */
  lemma GraceRunsOut(a: Account, e: Event)
    requires Pending(a, e) && a.sub.value.graceEndsAt.value <= e.now && e.action.gateway.NoGateway?
    ensures var r := Step(a, e);
            && r.sub.Some? && r.sub.value.pastDueSince == Some(e.now)
            && r.sub.value.status == (if e.settings.suspendAfterPastDueDays > 0 then PastDue else Suspended)
            && |r.invoices| == |a.invoices|
            && forall k :: 0 <= k < |a.invoices| ==>
                 r.invoices[k] == if a.invoices[k].status == Open
                                  then a.invoices[k].(status := Failed, nextRetryAt := None) else a.invoices[k]
  {
    hide AddCycle;
  }
}
