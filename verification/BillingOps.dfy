/** What each admin action and each automation step does to a shop's billing rows. */
module BillingOps {
  import opened Calendar
  import opened BillingModel
  import opened Options

  // ------------------------------------------------------------- assign

  datatype AssignInput = AssignInput(planId: PlanId, cycle: Cycle, startTrial: bool, markPaid: bool, autoRenew: bool)

  function FreshSubscription(dto: AssignInput, now: int): Subscription {
    Subscription(dto.planId, dto.cycle, Active, now, AddCycle(now, dto.cycle), None, None, None, dto.autoRenew,
                 false, None, None, None, false, None)
  }

  function Assign(a: Account, dto: AssignInput, plans: Catalog, settings: Settings, now: int): Result<Account> {
    if a.sub.Some? then Err(AlreadySubscribed)
    else if dto.planId !in plans then Err(PlanNotFound)
    else if !plans[dto.planId].isActive then Err(PlanRetired)
    else
      var plan := plans[dto.planId];
      var sub := FreshSubscription(dto, now);
      var price := PriceFor(plan, dto.cycle);
      if dto.startTrial && plan.trialDays > 0 then
        var trialEnd := AddDays(now, plan.trialDays);
        Ok(Account(Some(sub.(status := Trial, currentPeriodEnd := trialEnd, trialEndsAt := Some(trialEnd))), a.invoices))
      else if price == 0 then
        Ok(Account(Some(sub), a.invoices))
      else
        var invoice := NewInvoice(Initial, dto.cycle, now, AddCycle(now, dto.cycle), price);
        if dto.markPaid then
          Ok(Account(Some(sub), a.invoices + [SettleInvoice(invoice)]))
        else
          Ok(Account(Some(sub.(status := PaymentPending, graceEndsAt := Some(AddDays(now, settings.graceDays)))),
                     a.invoices + [invoice]))
  }

  // -------------------------------------------------------- change plan

  datatype ChangeInput = ChangeInput(planId: PlanId, cycle: Option<Cycle>, applyNow: Option<bool>)

  function PriceGap(sub: Subscription, plan: Plan, next: Plan, cycle: Cycle): int {
    MonthlyEquivalentTimes12(next, cycle) - MonthlyEquivalentTimes12(plan, sub.cycle)
  }

  /** More than half a paisa a month dearer. */
  predicate IsUpgrade(sub: Subscription, plan: Plan, next: Plan, cycle: Cycle) {
    PriceGap(sub, plan, next, cycle) > 6
  }

  predicate IsDowngrade(sub: Subscription, plan: Plan, next: Plan, cycle: Cycle) {
    PriceGap(sub, plan, next, cycle) < -6
  }

  predicate AppliesNow(sub: Subscription, plan: Plan, next: Plan, cycle: Cycle, asked: Option<bool>, settings: Settings) {
    var upgrade := IsUpgrade(sub, plan, next, cycle);
    var wanted := asked.GetOr(if upgrade then settings.upgradeProratedNow
                              else if IsDowngrade(sub, plan, next, cycle) then settings.downgradeNow
                              else true);
    wanted && !(!upgrade && cycle != sub.cycle && sub.status == Active)
  }

  function Max(a: int, b: int): int { if a < b then b else a }

  /** The share of the current period still ahead, as `num / den`; nothing of an empty period. */
  function Remaining(sub: Subscription, now: int): (f: Amount)
    ensures f.den > 0 && f.num >= 0
  {
    var total := sub.currentPeriodEnd - sub.currentPeriodStart;
    if total > 0 then Amount(Max(sub.currentPeriodEnd - now, 0), total) else Amount(0, 1)
  }

  /** What an immediate upgrade costs: the unused share at the new price, or a new cycle, less the unused share paid. */
  function UpgradeAmount(sub: Subscription, plan: Plan, next: Plan, cycle: Cycle, now: int): (x: Amount)
    ensures x.den > 0 && x.num >= 0
  {
    var f := Remaining(sub, now);
    var credit := PriceFor(plan, sub.cycle) * f.num;
    var charge := if cycle == sub.cycle then PriceFor(next, cycle) * f.num else PriceFor(next, cycle) * f.den;
    Amount(Max(charge - credit, 0), f.den)
  }

  function ChangePlan(a: Account, dto: ChangeInput, plans: Catalog, settings: Settings, now: int): Result<Account>
    requires Known(a, plans)
  {
    if a.sub.None? then Err(NoSubscription)
    else if dto.planId !in plans then Err(PlanNotFound)
    else if !plans[dto.planId].isActive then Err(PlanRetired)
    else
      var sub := a.sub.value;
      var plan, next := plans[sub.planId], plans[dto.planId];
      var cycle := dto.cycle.GetOr(sub.cycle);
      if dto.planId == sub.planId && cycle == sub.cycle then Err(SamePlan)
      else if sub.status != Trial && sub.status != Active then Err(NotChangeable)
      else if !AppliesNow(sub, plan, next, cycle, dto.applyNow, settings) && sub.status == Active then
        Ok(a.(sub := Some(sub.(pendingPlanId := Some(dto.planId), pendingCycle := Some(cycle)))))
      else
        var changed := sub.(planId := dto.planId, cycle := cycle, pendingPlanId := None, pendingCycle := None);
        if sub.status == Active && IsUpgrade(sub, plan, next, cycle) then
          var amount := UpgradeAmount(sub, plan, next, cycle, now);
          var periodEnd := if cycle == sub.cycle then sub.currentPeriodEnd else AddCycle(now, cycle);
          var moved := if cycle == sub.cycle then changed
                       else changed.(currentPeriodStart := now, currentPeriodEnd := periodEnd);
          var billed := if Billable(amount) then [NewInvoice(Upgrade, cycle, now, periodEnd, Round2(amount))] else [];
          Ok(Account(Some(moved), a.invoices + billed))
        else
          Ok(a.(sub := Some(changed)))
  }

  function CancelScheduledChange(a: Account): Result<Account> {
    if a.sub.None? then Err(NoSubscription)
    else if a.sub.value.pendingPlanId.None? then Err(NoScheduledChange)
    else Ok(a.(sub := Some(a.sub.value.(pendingPlanId := None, pendingCycle := None))))
  }

  // ------------------------------------------------------------- extend

  function Extend(a: Account, days: Days, now: int): Result<Account> {
    if a.sub.None? then Err(NoSubscription)
    else
      var sub := a.sub.value;
      if sub.status !in {Trial, Active, Expired} then Err(NotExtendable)
      else
        var base := if sub.status == Expired && sub.currentPeriodEnd < now then now else sub.currentPeriodEnd;
        var end := AddDays(base, days);
        Ok(a.(sub := Some(sub.(
          currentPeriodEnd := end,
          trialEndsAt := if sub.status == Trial then Some(end) else sub.trialEndsAt,
          status := if sub.status == Expired then Active else sub.status))))
  }

  function ExtendGrace(a: Account, days: Days, now: int): Result<Account> {
    if a.sub.None? then Err(NoSubscription)
    else
      var sub := a.sub.value;
      if sub.status != PaymentPending && sub.status != PastDue then Err(NotInGrace)
      else
        var base := Max(sub.graceEndsAt.GetOr(now), now);
        Ok(a.(sub := Some(sub.(status := PaymentPending, graceEndsAt := Some(AddDays(base, days)), pastDueSince := None))))
  }

  // ------------------------------------------------------------- cancel

  function Cancel(a: Account, periodEnd: bool, now: int): Result<Account> {
    if a.sub.None? then Err(NoSubscription)
    else
      var sub := a.sub.value;
      if sub.status == Cancelled then Err(AlreadyCancelled)
      else if periodEnd && (sub.status == Active || sub.status == Trial) then
        Ok(a.(sub := Some(sub.(cancelAtPeriodEnd := true, pendingPlanId := None, pendingCycle := None))))
      else
        Ok(Account(
          Some(sub.(status := Cancelled, cancelledAt := Some(now), cancelAtPeriodEnd := false, graceEndsAt := None,
                    pastDueSince := None, pendingPlanId := None, pendingCycle := None)),
          MapRows(a.invoices, VoidIfUnpaid)))
  }

  function Resume(a: Account): Result<Account> {
    if a.sub.None? then Err(NoSubscription)
    else if !a.sub.value.cancelAtPeriodEnd then Err(NotEnding)
    else Ok(a.(sub := Some(a.sub.value.(cancelAtPeriodEnd := false))))
  }

  // ---------------------------------------------------------- mark paid

  /** The period a paid invoice buys: its own, or one cycle from now when that has passed. */
  function PaidPeriod(sub: Subscription, paid: Invoice, now: int): Subscription {
    if paid.periodEnd <= now then
      sub.(currentPeriodStart := now, currentPeriodEnd := AddCycle(now, paid.cycle))
    else
      sub.(currentPeriodStart := paid.periodStart, currentPeriodEnd := paid.periodEnd)
  }

  function PayInvoice(invoices: seq<Invoice>, k: nat): Result<seq<Invoice>> {
    if k >= |invoices| then Err(InvoiceNotFound)
    else if invoices[k].status == Paid then Err(InvoiceAlreadyPaid)
    else if !Unpaid(invoices[k]) then Err(InvoiceNotPayable)
    else Ok(invoices[k := SettleInvoice(invoices[k])])
  }

  /** `chosen` is the invoice the admin picked; None takes the oldest unpaid one. */
  function MarkPaid(a: Account, chosen: Option<nat>, now: int): Result<Account> {
    if a.sub.None? then Err(NoSubscription)
    else
      var sub := a.sub.value;
      var k := chosen.GetOr(OldestUnpaid(a.invoices));
      if k >= |a.invoices| then Err(if chosen.Some? then InvoiceNotFound else NoUnpaidInvoice)
      else
        match PayInvoice(a.invoices, k)
        case Err(e) => Err(e)
        case Ok(invoices) =>
          var paid := invoices[k];
          if paid.kind == Upgrade || sub.status == Cancelled then Ok(a.(invoices := invoices))
          else
            var held := sub.automationPaused && sub.status == Suspended;
            Ok(Account(
              Some(PaidPeriod(sub, paid, now).(trialEndsAt := None, graceEndsAt := None, pastDueSince := None,
                                               status := if held then sub.status else Active)),
              invoices))
  }

  // ------------------------------------------------------------ refunds

  /** `value` is the requested amount after rounding to whole paise. */
  function RefundInvoice(i: Invoice, value: int): Result<Invoice> {
    if i.status != Paid && i.status != PartiallyRefunded then Err(NotRefundable)
    else if value <= 0 then Err(RefundNotPositive)
    else if value > i.amount - i.refundedAmount then Err(RefundTooLarge)
    else
      var total := i.refundedAmount + value;
      Ok(i.(refunds := i.refunds + [value], refundedAmount := total,
            status := if total >= i.amount then Refunded else PartiallyRefunded))
  }

  function Refund(a: Account, k: nat, value: int): Result<Account> {
    if k >= |a.invoices| then Err(InvoiceNotFound)
    else
      match RefundInvoice(a.invoices[k], value)
      case Err(e) => Err(e)
      case Ok(i) => Ok(a.(invoices := a.invoices[k := i]))
  }

  // ---------------------------------------------------------- overrides

  function PauseEnd(days: Option<Days>, now: int): Option<int> {
    if days.Some? then Some(AddDays(now, days.value)) else None
  }

  function ForceSuspend(a: Account, days: Option<Days>, now: int): Result<Account> {
    if a.sub.None? then Err(NoSubscription)
    else Ok(a.(sub := Some(a.sub.value.(status := Suspended, automationPaused := true, pausedUntil := PauseEnd(days, now)))))
  }

  function ForceReactivate(a: Account, days: Option<Days>, now: int): Result<Account> {
    if a.sub.None? then Err(NoSubscription)
    else
      var sub := a.sub.value;
      var current := if sub.currentPeriodEnd <= now
                     then sub.(currentPeriodStart := now, currentPeriodEnd := AddCycle(now, sub.cycle)) else sub;
      Ok(a.(sub := Some(current.(status := Active, graceEndsAt := None, pastDueSince := None, cancelAtPeriodEnd := false,
                                 cancelledAt := None, automationPaused := true, pausedUntil := PauseEnd(days, now)))))
  }

  function ReleaseOverride(a: Account): Result<Account> {
    if a.sub.None? then Err(NoSubscription)
    else if !a.sub.value.automationPaused then Err(NoOverride)
    else Ok(a.(sub := Some(a.sub.value.(automationPaused := false, pausedUntil := None))))
  }

  function SetAutoRenew(a: Account, autoRenew: bool): Result<Account> {
    if a.sub.None? then Err(NoSubscription)
    else Ok(a.(sub := Some(a.sub.value.(autoRenew := autoRenew))))
  }

  // --------------------------------------------------------- automation

  /** The shop's payment provider and how it answers a renewal charge and a retry in this run. */
  datatype Gateway = NoGateway | Connected(renewalOk: bool, retryOk: bool)

  datatype Env = Env(plans: Catalog, settings: Settings, now: int, gateway: Gateway)

  /** A scheduled plan change takes effect at renewal, when its plan still exists. */
  function WithPendingChange(sub: Subscription, plans: Catalog): Subscription {
    if sub.pendingPlanId.Some? && sub.pendingPlanId.value in plans then
      sub.(planId := sub.pendingPlanId.value, cycle := sub.pendingCycle.GetOr(sub.cycle),
           pendingPlanId := None, pendingCycle := None)
    else sub
  }

  function Renewed(sub: Subscription, start: int): Subscription {
    sub.(status := Active, trialEndsAt := None, currentPeriodStart := start, currentPeriodEnd := AddCycle(start, sub.cycle))
  }

  function RenewalStart(sub: Subscription): int {
    if sub.status == Trial then sub.trialEndsAt.GetOr(sub.currentPeriodEnd) else sub.currentPeriodEnd
  }

  /** The renewal invoice after a declined first charge. */
  function Declined(i: Invoice, settings: Settings, now: int): Invoice {
    i.(attemptCount := 1,
       nextRetryAt := if settings.retryAttempts > 0 then Some(AddDays(now, settings.retryIntervalDays)) else None)
  }

  /** The trial or paid period of an account in `Trial` or `Active` has ended. */
  function EndOfTerm(a: Account, env: Env): (r: Account)
    requires a.sub.Some? && Known(a, env.plans)
    ensures r.sub.Some? && Known(r, env.plans)
  {
    var sub := a.sub.value;
    if sub.cancelAtPeriodEnd then
      a.(sub := Some(sub.(status := Cancelled, cancelledAt := Some(env.now), cancelAtPeriodEnd := false,
                          pendingPlanId := None, pendingCycle := None)))
    else if !sub.autoRenew then
      a.(sub := Some(sub.(status := Expired)))
    else
      var start := RenewalStart(sub);
      var planned := WithPendingChange(sub, env.plans);
      var price := PriceFor(env.plans[planned.planId], planned.cycle);
      if price == 0 then
        a.(sub := Some(Renewed(planned, start)))
      else
        var invoice := NewInvoice(Renewal, planned.cycle, start, AddCycle(start, planned.cycle), price);
        if env.gateway.Connected? && env.gateway.renewalOk then
          Account(Some(Renewed(planned, start)), a.invoices + [SettleInvoice(invoice)])
        else
          var row := if env.gateway.Connected? then Declined(invoice, env.settings, env.now) else invoice;
          Account(Some(planned.(status := PaymentPending, graceEndsAt := Some(AddDays(env.now, env.settings.graceDays)))),
                  a.invoices + [row])
  }

  /** A failed retry: counted, and scheduled again while attempts are left. */
  function RetryFailed(i: Invoice, settings: Settings, now: int): Invoice {
    i.(attemptCount := i.attemptCount + 1,
       nextRetryAt := if i.attemptCount + 1 <= settings.retryAttempts
                      then Some(AddDays(now, settings.retryIntervalDays)) else None)
  }

  function RetryPayment(a: Account, env: Env): (r: Account)
    requires a.sub.Some?
    ensures r.sub.Some? && r.sub.value.planId == a.sub.value.planId
  {
    var k := OldestDue(a.invoices, env.now);
    if env.gateway.NoGateway? || k >= |a.invoices| || a.invoices[k].attemptCount > env.settings.retryAttempts then a
    else if env.gateway.retryOk then
      Account(
        Some(PaidPeriod(a.sub.value, a.invoices[k], env.now).(status := Active, graceEndsAt := None, pastDueSince := None)),
        a.invoices[k := SettleInvoice(a.invoices[k])])
    else
      a.(invoices := a.invoices[k := RetryFailed(a.invoices[k], env.settings, env.now)])
  }

  function ToPastDue(a: Account, now: int): (r: Account)
    requires a.sub.Some?
    ensures r.sub.Some? && r.sub.value.planId == a.sub.value.planId
  {
    Account(Some(a.sub.value.(status := PastDue, pastDueSince := Some(now))), MapRows(a.invoices, FailIfOpen))
  }

  predicate HasStatus(a: Account, status: Status) {
    a.sub.Some? && a.sub.value.status == status
  }

  function GraceCheck(a: Account, now: int): Account {
    if HasStatus(a, PaymentPending) && a.sub.value.graceEndsAt.GetOr(now) <= now then ToPastDue(a, now) else a
  }

  function SuspendCheck(a: Account, env: Env): Account {
    if HasStatus(a, PastDue) &&
       AddDays(a.sub.value.pastDueSince.GetOr(env.now), env.settings.suspendAfterPastDueDays) <= env.now
    then a.(sub := Some(a.sub.value.(status := Suspended))) else a
  }

  /** Payment retry, end of grace and suspension, in the order of one run. */
  function Dunning(a: Account, env: Env): Account
    requires a.sub.Some?
  {
    var retried := if HasStatus(a, PaymentPending) then RetryPayment(a, env) else a;
    SuspendCheck(GraceCheck(retried, env.now), env)
  }

  /** The automation's work on an account that no override holds back. */
  function Lifecycle(a: Account, env: Env): Account
    requires a.sub.Some? && Known(a, env.plans)
  {
    var sub := a.sub.value;
    if sub.status == Trial then
      if RenewalStart(sub) <= env.now then EndOfTerm(a, env) else a
    else if sub.status == Active then
      if sub.currentPeriodEnd <= env.now then Dunning(EndOfTerm(a, env), env) else a
    else Dunning(a, env)
  }

  predicate OverrideOver(sub: Subscription, now: int) {
    sub.pausedUntil.Some? && sub.pausedUntil.value <= now
  }

  function Unpaused(a: Account): Account
    requires a.sub.Some?
  {
    a.(sub := Some(a.sub.value.(automationPaused := false, pausedUntil := None)))
  }

  /** One shop's turn in a billing run. */
  function Process(a: Account, env: Env): Account
    requires Known(a, env.plans)
  {
    if a.sub.None? then a
    else if a.sub.value.automationPaused then
      if OverrideOver(a.sub.value, env.now) then Lifecycle(Unpaused(a), env) else a
    else Lifecycle(a, env)
  }

  /** Shops a billing run selects. */
  predicate Selected(a: Account) {
    a.sub.Some? && a.sub.value.status in {Trial, Active, PaymentPending, PastDue}
  }

  function Automation(a: Account, env: Env): Account
    requires Known(a, env.plans)
  {
    if Selected(a) then Process(a, env) else a
  }
}
