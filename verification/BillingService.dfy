/** One shop's billing rows, changed step by step as the admin service and the automation change them. */
module BillingService {
  import opened Calendar
  import opened BillingModel
  import opened Options
  import Ops = BillingOps

  datatype Outcome = Done | Refused(error: BillingError)

  class ShopBilling {
    var sub: Option<Subscription>
    var invoices: seq<Invoice>

    constructor ()
      ensures State() == NewAccount
    {
      sub := None;
      invoices := [];
    }

    function State(): Account
      reads this
    {
      Account(sub, invoices)
    }

    /** The rows are what `result` says, or untouched when it refuses. */
    twostate predicate Applied(result: Result<Account>, r: Outcome)
      reads this
    {
      match result
      case Ok(after) => r == Done && State() == after
      case Err(e) => r == Refused(e) && State() == old(State())
    }

    // --------------------------------------------------- invoice rows

    method CreateInvoice(kind: InvoiceKind, cycle: Cycle, periodStart: int, periodEnd: int, amount: Amount)
      returns (id: nat)
      requires amount.den > 0
      modifies this`invoices
      ensures id == |old(invoices)|
      ensures invoices == old(invoices) + [NewInvoice(kind, cycle, periodStart, periodEnd, Round2(amount))]
    {
      id := |invoices|;
      invoices := invoices + [NewInvoice(kind, cycle, periodStart, periodEnd, Round2(amount))];
    }

    method MarkInvoicePaid(id: nat) returns (r: Outcome)
      modifies this`invoices
      ensures match Ops.PayInvoice(old(invoices), id)
              case Ok(rows) => r == Done && invoices == rows
              case Err(e) => r == Refused(e) && invoices == old(invoices)
    {
      if id >= |invoices| {
        return Refused(InvoiceNotFound);
      }
      var invoice := invoices[id];
      if invoice.status == Paid {
        return Refused(InvoiceAlreadyPaid);
      }
      if invoice.status != Open && invoice.status != Failed {
        return Refused(InvoiceNotPayable);
      }
      invoices := invoices[id := invoice.(status := Paid, nextRetryAt := None)];
      r := Done;
    }

    method RefundInvoice(id: nat, value: int) returns (r: Outcome)
      modifies this`invoices
      ensures Applied(Ops.Refund(old(State()), id, value), r)
    {
      if id >= |invoices| {
        return Refused(InvoiceNotFound);
      }
      var invoice := invoices[id];
      if invoice.status != Paid && invoice.status != PartiallyRefunded {
        return Refused(NotRefundable);
      }
      var refundable := invoice.amount - invoice.refundedAmount;
      if value <= 0 {
        return Refused(RefundNotPositive);
      }
      if value > refundable {
        return Refused(RefundTooLarge);
      }
      invoice := invoice.(refunds := invoice.refunds + [value]);
      var totalRefunded := invoice.refundedAmount + value;
      invoice := invoice.(refundedAmount := totalRefunded);
      invoice := invoice.(status := if totalRefunded >= invoice.amount then Refunded else PartiallyRefunded);
      invoices := invoices[id := invoice];
      r := Done;
    }

    // -------------------------------------------------- admin actions

    method Assign(dto: Ops.AssignInput, plans: Catalog, settings: Settings, now: int) returns (r: Outcome)
      modifies this
      ensures Applied(Ops.Assign(old(State()), dto, plans, settings, now), r)
    {
      hide AddCycle, MapRows, FirstIndex;
      if sub.Some? {
        return Refused(AlreadySubscribed);
      }
      if dto.planId !in plans {
        return Refused(PlanNotFound);
      }
      var plan := plans[dto.planId];
      if !plan.isActive {
        return Refused(PlanRetired);
      }
      var price := PriceFor(plan, dto.cycle);
      var status := Active;
      var periodEnd := AddCycleDate(now, dto.cycle);
      var trialEndsAt, graceEndsAt := None, None;
      if dto.startTrial && plan.trialDays > 0 {
        status := Trial;
        trialEndsAt := Some(AddDays(now, plan.trialDays));
        periodEnd := trialEndsAt.value;
      } else if price > 0 {
        var id := CreateInvoice(Initial, dto.cycle, now, periodEnd, Amount(price, 1));
        if dto.markPaid {
          var paid := MarkInvoicePaid(id);
        } else {
          status := PaymentPending;
          graceEndsAt := Some(AddDays(now, settings.graceDays));
        }
      }
      sub := Some(Subscription(dto.planId, dto.cycle, status, now, periodEnd, trialEndsAt, graceEndsAt, None,
                               dto.autoRenew, false, None, None, None, false, None));
      r := Done;
    }

    method ChangePlan(dto: Ops.ChangeInput, plans: Catalog, settings: Settings, now: int) returns (r: Outcome)
      requires Known(State(), plans)
      modifies this
      ensures Applied(Ops.ChangePlan(old(State()), dto, plans, settings, now), r)
    {
      hide AddCycle, MapRows, FirstIndex, PriceFor;
      if sub.None? {
        return Refused(NoSubscription);
      }
      var row := sub.value;
      if dto.planId !in plans {
        return Refused(PlanNotFound);
      }
      var plan, next := plans[row.planId], plans[dto.planId];
      if !next.isActive {
        return Refused(PlanRetired);
      }
      var cycle := dto.cycle.GetOr(row.cycle);
      if dto.planId == row.planId && cycle == row.cycle {
        return Refused(SamePlan);
      }
      if row.status != Trial && row.status != Active {
        return Refused(NotChangeable);
      }
      var diff := MonthlyEquivalentTimes12(next, cycle) - MonthlyEquivalentTimes12(plan, row.cycle);
      var upgrade, downgrade := diff > 6, diff < -6;
      var applyNow := dto.applyNow.GetOr(if upgrade then settings.upgradeProratedNow
                                         else if downgrade then settings.downgradeNow else true);
      if !upgrade && cycle != row.cycle && row.status == Active {
        applyNow := false;
      }
      if !applyNow && row.status == Active {
        sub := Some(row.(pendingPlanId := Some(dto.planId), pendingCycle := Some(cycle)));
        return Done;
      }
      var data := row.(planId := dto.planId, cycle := cycle, pendingPlanId := None, pendingCycle := None);
      if row.status == Active && upgrade {
        var amount := Ops.UpgradeAmount(row, plan, next, cycle, now);
        var sameCycle := cycle == row.cycle;
        var periodEnd := row.currentPeriodEnd;
        if !sameCycle {
          periodEnd := AddCycleDate(now, cycle);
          data := data.(currentPeriodStart := now, currentPeriodEnd := periodEnd);
        }
        if Billable(amount) {
          var id := CreateInvoice(Upgrade, cycle, now, periodEnd, amount);
        }
      }
      sub := Some(data);
      r := Done;
    }

    method CancelScheduledChange() returns (r: Outcome)
      modifies this
      ensures Applied(Ops.CancelScheduledChange(old(State())), r)
    {
      if sub.None? {
        return Refused(NoSubscription);
      }
      if sub.value.pendingPlanId.None? {
        return Refused(NoScheduledChange);
      }
      sub := Some(sub.value.(pendingPlanId := None, pendingCycle := None));
      r := Done;
    }

    method Extend(days: Days, now: int) returns (r: Outcome)
      modifies this
      ensures Applied(Ops.Extend(old(State()), days, now), r)
    {
      if sub.None? {
        return Refused(NoSubscription);
      }
      var row := sub.value;
      if row.status !in {Trial, Active, Expired} {
        return Refused(NotExtendable);
      }
      var base := if row.status == Expired && row.currentPeriodEnd < now then now else row.currentPeriodEnd;
      var end := AddDays(base, days);
      var data := row.(currentPeriodEnd := end);
      if row.status == Trial {
        data := data.(trialEndsAt := Some(end));
      }
      if row.status == Expired {
        data := data.(status := Active);
      }
      sub := Some(data);
      r := Done;
    }

    method ExtendGrace(days: Days, now: int) returns (r: Outcome)
      modifies this
      ensures Applied(Ops.ExtendGrace(old(State()), days, now), r)
    {
      if sub.None? {
        return Refused(NoSubscription);
      }
      var row := sub.value;
      if row.status != PaymentPending && row.status != PastDue {
        return Refused(NotInGrace);
      }
      var base := now;
      if row.graceEndsAt.Some? && row.graceEndsAt.value > now {
        base := row.graceEndsAt.value;
      }
      sub := Some(row.(status := PaymentPending, graceEndsAt := Some(AddDays(base, days)), pastDueSince := None));
      r := Done;
    }

    method Cancel(periodEnd: bool, now: int) returns (r: Outcome)
      modifies this
      ensures Applied(Ops.Cancel(old(State()), periodEnd, now), r)
    {
      if sub.None? {
        return Refused(NoSubscription);
      }
      var row := sub.value;
      if row.status == Cancelled {
        return Refused(AlreadyCancelled);
      }
      if periodEnd && (row.status == Active || row.status == Trial) {
        sub := Some(row.(cancelAtPeriodEnd := true, pendingPlanId := None, pendingCycle := None));
      } else {
        invoices := MapRows(invoices, VoidIfUnpaid);
        sub := Some(row.(status := Cancelled, cancelledAt := Some(now), cancelAtPeriodEnd := false, graceEndsAt := None,
                         pastDueSince := None, pendingPlanId := None, pendingCycle := None));
      }
      r := Done;
    }

    method Resume() returns (r: Outcome)
      modifies this
      ensures Applied(Ops.Resume(old(State())), r)
    {
      if sub.None? {
        return Refused(NoSubscription);
      }
      if !sub.value.cancelAtPeriodEnd {
        return Refused(NotEnding);
      }
      sub := Some(sub.value.(cancelAtPeriodEnd := false));
      r := Done;
    }

    method MarkPaid(chosen: Option<nat>, now: int) returns (r: Outcome)
      modifies this
      ensures Applied(Ops.MarkPaid(old(State()), chosen, now), r)
    {
      hide AddCycle, MapRows;
      if sub.None? {
        return Refused(NoSubscription);
      }
      var row := sub.value;
      var id := chosen.GetOr(OldestUnpaid(invoices));
      if id >= |invoices| {
        return Refused(if chosen.Some? then InvoiceNotFound else NoUnpaidInvoice);
      }
      r := MarkInvoicePaid(id);
      if r.Refused? {
        return;
      }
      var paid := invoices[id];
      if paid.kind != Upgrade && row.status != Cancelled {
        var lapsed := paid.periodEnd <= now;
        var start, end := paid.periodStart, paid.periodEnd;
        if lapsed {
          start := now;
          end := AddCycleDate(now, paid.cycle);
        }
        var heldByOverride := row.automationPaused && row.status == Suspended;
        var data := row.(currentPeriodStart := start, currentPeriodEnd := end, trialEndsAt := None,
                         graceEndsAt := None, pastDueSince := None);
        if !heldByOverride {
          data := data.(status := Active);
        }
        sub := Some(data);
      }
    }

    method ForceSuspend(days: Option<Days>, now: int) returns (r: Outcome)
      modifies this
      ensures Applied(Ops.ForceSuspend(old(State()), days, now), r)
    {
      if sub.None? {
        return Refused(NoSubscription);
      }
      sub := Some(sub.value.(status := Suspended, automationPaused := true,
                             pausedUntil := if days.Some? then Some(AddDays(now, days.value)) else None));
      r := Done;
    }

    method ForceReactivate(days: Option<Days>, now: int) returns (r: Outcome)
      modifies this
      ensures Applied(Ops.ForceReactivate(old(State()), days, now), r)
    {
      hide AddCycle, MapRows, FirstIndex;
      if sub.None? {
        return Refused(NoSubscription);
      }
      var row := sub.value;
      var lapsed := row.currentPeriodEnd <= now;
      var data := row.(status := Active, graceEndsAt := None, pastDueSince := None, cancelAtPeriodEnd := false,
                       cancelledAt := None, automationPaused := true,
                       pausedUntil := if days.Some? then Some(AddDays(now, days.value)) else None);
      if lapsed {
        var end := AddCycleDate(now, row.cycle);
        data := data.(currentPeriodStart := now, currentPeriodEnd := end);
      }
      sub := Some(data);
      r := Done;
    }

    method ReleaseOverride() returns (r: Outcome)
      modifies this
      ensures Applied(Ops.ReleaseOverride(old(State())), r)
    {
      if sub.None? {
        return Refused(NoSubscription);
      }
      if !sub.value.automationPaused {
        return Refused(NoOverride);
      }
      sub := Some(sub.value.(automationPaused := false, pausedUntil := None));
      r := Done;
    }

    method SetAutoRenew(autoRenew: bool) returns (r: Outcome)
      modifies this
      ensures Applied(Ops.SetAutoRenew(old(State()), autoRenew), r)
    {
      if sub.None? {
        return Refused(NoSubscription);
      }
      if autoRenew != sub.value.autoRenew {
        sub := Some(sub.value.(autoRenew := autoRenew));
      }
      r := Done;
    }

    // ----------------------------------------------------- automation

    method EndOfTerm(env: Ops.Env, fromTrial: bool)
      requires sub.Some? && Known(State(), env.plans)
      requires fromTrial == (sub.value.status == Trial)
      modifies this
      ensures State() == Ops.EndOfTerm(old(State()), env)
    {
      hide AddCycle, MapRows, FirstIndex, PriceFor;
      var row := sub.value;
      if row.cancelAtPeriodEnd {
        sub := Some(row.(status := Cancelled, cancelledAt := Some(env.now), cancelAtPeriodEnd := false,
                         pendingPlanId := None, pendingCycle := None));
        return;
      }
      if !row.autoRenew {
        sub := Some(row.(status := Expired));
        return;
      }
      var pending := row.pendingPlanId.Some? && row.pendingPlanId.value in env.plans;
      var planId := if pending then row.pendingPlanId.value else row.planId;
      var cycle := if pending then row.pendingCycle.GetOr(row.cycle) else row.cycle;
      var start := if fromTrial then row.trialEndsAt.GetOr(row.currentPeriodEnd) else row.currentPeriodEnd;
      var end := AddCycleDate(start, cycle);
      var price := PriceFor(env.plans[planId], cycle);
      var data := row;
      if pending {
        data := data.(planId := planId, cycle := cycle, pendingPlanId := None, pendingCycle := None);
      }
      if price == 0 {
        sub := Some(data.(status := Active, trialEndsAt := None, currentPeriodStart := start, currentPeriodEnd := end));
        return;
      }
      var id := CreateInvoice(Renewal, cycle, start, end, Amount(price, 1));
      if env.gateway.Connected? {
        if env.gateway.renewalOk {
          var paid := MarkInvoicePaid(id);
          sub := Some(data.(status := Active, trialEndsAt := None, currentPeriodStart := start, currentPeriodEnd := end));
          return;
        }
        var retryAt := None;
        if env.settings.retryAttempts > 0 {
          retryAt := Some(AddDays(env.now, env.settings.retryIntervalDays));
        }
        invoices := invoices[id := invoices[id].(attemptCount := 1, nextRetryAt := retryAt)];
      }
      sub := Some(data.(status := PaymentPending, graceEndsAt := Some(AddDays(env.now, env.settings.graceDays))));
    }

    method RetryPayment(env: Ops.Env)
      requires sub.Some?
      modifies this
      ensures State() == Ops.RetryPayment(old(State()), env)
    {
      hide AddCycle, MapRows;
      if env.gateway.NoGateway? {
        return;
      }
      var id := OldestDue(invoices, env.now);
      if id >= |invoices| || invoices[id].attemptCount > env.settings.retryAttempts {
        return;
      }
      var invoice := invoices[id];
      if env.gateway.retryOk {
        var r := MarkInvoicePaid(id);
        var paid := invoices[id];
        var start, end := paid.periodStart, paid.periodEnd;
        if paid.periodEnd <= env.now {
          start := env.now;
          end := AddCycleDate(env.now, paid.cycle);
        }
        sub := Some(sub.value.(status := Active, graceEndsAt := None, pastDueSince := None,
                               currentPeriodStart := start, currentPeriodEnd := end));
        return;
      }
      var attempts := invoice.attemptCount + 1;
      var more := attempts <= env.settings.retryAttempts;
      var retryAt := None;
      if more {
        retryAt := Some(AddDays(env.now, env.settings.retryIntervalDays));
      }
      invoices := invoices[id := invoice.(attemptCount := attempts, nextRetryAt := retryAt)];
    }

    method ToPastDue(now: int)
      requires sub.Some?
      modifies this
      ensures State() == Ops.ToPastDue(old(State()), now)
    {
      invoices := MapRows(invoices, FailIfOpen);
      sub := Some(sub.value.(status := PastDue, pastDueSince := Some(now)));
    }

    method Process(env: Ops.Env)
      requires Known(State(), env.plans)
      modifies this
      ensures State() == Ops.Process(old(State()), env)
    {
      hide AddCycle, MapRows, FirstIndex, Ops.EndOfTerm, Ops.RetryPayment, Ops.ToPastDue;
      if sub.None? {
        return;
      }
      if sub.value.automationPaused {
        if sub.value.pausedUntil.None? || sub.value.pausedUntil.value > env.now {
          return;
        }
        sub := Some(sub.value.(automationPaused := false, pausedUntil := None));
      }
      if sub.value.status == Trial {
        if sub.value.trialEndsAt.GetOr(sub.value.currentPeriodEnd) <= env.now {
          EndOfTerm(env, true);
        }
        return;
      }
      if sub.value.status == Active {
        if sub.value.currentPeriodEnd <= env.now {
          EndOfTerm(env, false);
        } else {
          return;
        }
      }
      if sub.value.status == PaymentPending {
        RetryPayment(env);
      }
      if sub.value.status == PaymentPending {
        if sub.value.graceEndsAt.None? || sub.value.graceEndsAt.value <= env.now {
          ToPastDue(env.now);
        }
      }
      if sub.value.status == PastDue {
        var since := sub.value.pastDueSince.GetOr(env.now);
        var suspendAt := AddDays(since, env.settings.suspendAfterPastDueDays);
        if suspendAt <= env.now {
          sub := Some(sub.value.(status := Suspended));
        }
      }
    }
  }
}
