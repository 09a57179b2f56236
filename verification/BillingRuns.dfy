/** Every mix of admin actions and billing runs on one shop, and what all of them keep. */
module BillingRuns {
  import opened Calendar
  import opened BillingModel
  import opened Options
  import Ops = BillingOps

  datatype Action =
    | Assign(assign: Ops.AssignInput)
    | ChangePlan(change: Ops.ChangeInput)
    | CancelScheduledChange
    | Extend(days: Days)
    | ExtendGrace(days: Days)
    | Cancel(periodEnd: bool)
    | Resume
    | MarkPaid(chosen: Option<nat>)
    | Refund(invoice: nat, value: int)
    | ForceSuspend(pause: Option<Days>)
    | ForceReactivate(pause: Option<Days>)
    | ReleaseOverride
    | SetAutoRenew(autoRenew: bool)
    | Automation(gateway: Ops.Gateway)

  /** One action at an instant, under the plan catalogue and settings of that moment. */
  datatype Event = Event(now: int, plans: Catalog, settings: Settings, action: Action)

  function Perform(a: Account, e: Event): Result<Account>
    requires Known(a, e.plans)
  {
    match e.action
    case Assign(dto) => Ops.Assign(a, dto, e.plans, e.settings, e.now)
    case ChangePlan(dto) => Ops.ChangePlan(a, dto, e.plans, e.settings, e.now)
    case CancelScheduledChange => Ops.CancelScheduledChange(a)
    case Extend(days) => Ops.Extend(a, days, e.now)
    case ExtendGrace(days) => Ops.ExtendGrace(a, days, e.now)
    case Cancel(periodEnd) => Ops.Cancel(a, periodEnd, e.now)
    case Resume => Ops.Resume(a)
    case MarkPaid(chosen) => Ops.MarkPaid(a, chosen, e.now)
    case Refund(k, value) => Ops.Refund(a, k, value)
    case ForceSuspend(days) => Ops.ForceSuspend(a, days, e.now)
    case ForceReactivate(days) => Ops.ForceReactivate(a, days, e.now)
    case ReleaseOverride => Ops.ReleaseOverride(a)
    case SetAutoRenew(autoRenew) => Ops.SetAutoRenew(a, autoRenew)
    case Automation(gateway) => Ok(Ops.Automation(a, Ops.Env(e.plans, e.settings, e.now, gateway)))
  }

  /** A refused action changes nothing; a catalogue without the shop's plan cannot be met. */
  function Step(a: Account, e: Event): Account {
    if !Known(a, e.plans) then a
    else match Perform(a, e)
         case Ok(after) => after
         case Err(_) => a
  }

  function Run(a: Account, trace: seq<Event>): Account
    decreases |trace|
  {
    if trace == [] then a else Run(Step(a, trace[0]), trace[1..])
  }

  /** The clock never runs backwards, starting from `clock`. */
  predicate Timely(clock: int, trace: seq<Event>)
    decreases |trace|
  {
    trace == [] || (clock <= trace[0].now && Timely(trace[0].now, trace[1..]))
  }

  function LastClock(clock: int, trace: seq<Event>): int {
    if trace == [] then clock else trace[|trace| - 1].now
  }

  // --------------------------------------------------------- invariant

  function Sum(s: seq<int>): int {
    if s == [] then 0 else Sum(s[..|s| - 1]) + s[|s| - 1]
  }

  /** Refunds add up to the stored total, which stays within the amount; Refunded means all of it. */
  predicate MoneyOk(i: Invoice) {
    && i.amount > 0
    && i.refundedAmount == Sum(i.refunds)
    && (forall k :: 0 <= k < |i.refunds| ==> i.refunds[k] > 0)
    && match i.status
       case PartiallyRefunded => 0 < i.refundedAmount < i.amount
       case Refunded => i.refundedAmount == i.amount
       case _ => i.refundedAmount == 0
  }

  predicate InvoiceOk(i: Invoice, now: int) {
    && i.periodStart < i.periodEnd
    && i.periodStart <= now
    && (i.nextRetryAt.Some? ==> i.status == Open && i.kind == Renewal)
    && MoneyOk(i)
  }

  predicate OwesTerm(i: Invoice) { Unpaid(i) && i.kind != Upgrade }

  ghost predicate HasUnpaidTerm(invoices: seq<Invoice>) {
    exists k :: 0 <= k < |invoices| && OwesTerm(invoices[k])
  }

  /** Renewal invoices are billed for strictly later and later terms. */
  ghost predicate RenewalsAdvance(invoices: seq<Invoice>) {
    forall i, j :: 0 <= i < j < |invoices| && invoices[i].kind == Renewal && invoices[j].kind == Renewal
      ==> invoices[i].periodStart < invoices[j].periodStart
  }

  /** No term that starts at `end` or later has been billed as a renewal. */
  ghost predicate RenewedBefore(invoices: seq<Invoice>, end: int) {
    forall i :: 0 <= i < |invoices| && invoices[i].kind == Renewal ==> invoices[i].periodStart < end
  }

  ghost predicate SubscriptionOk(s: Subscription, invoices: seq<Invoice>, now: int) {
    && s.currentPeriodStart < s.currentPeriodEnd
    && s.currentPeriodStart <= now
    && (s.status == Trial ==> s.trialEndsAt == Some(s.currentPeriodEnd) && invoices == [])
    && (s.status == PaymentPending ==> s.graceEndsAt.Some?)
    && (s.status == PastDue ==> s.pastDueSince.Some? && s.pastDueSince.value <= now)
    && (s.status in {PaymentPending, PastDue} ==>
          !s.cancelAtPeriodEnd && !s.automationPaused && HasUnpaidTerm(invoices))
    && (s.status in {Trial, Active} ==> RenewedBefore(invoices, s.currentPeriodEnd))
  }

  ghost predicate InvoicesOk(invoices: seq<Invoice>, now: int) {
    && (forall i :: 0 <= i < |invoices| ==> InvoiceOk(invoices[i], now))
    && RenewalsAdvance(invoices)
  }

  ghost predicate Inv(a: Account, now: int) {
    && InvoicesOk(a.invoices, now)
    && match a.sub
       case None => a.invoices == []
       case Some(s) => SubscriptionOk(s, a.invoices, now)
  }

  lemma InvLater(a: Account, clock: int, now: int)
    requires Inv(a, clock) && clock <= now
    ensures Inv(a, now)
  {
  }

  // ---------------------------------------- rows that change in place

  /** A row edit that keeps the term, the kind and the money in order. */
  predicate KeepsTerm(i: Invoice, j: Invoice) {
    i.kind == j.kind && i.periodStart == j.periodStart && i.periodEnd == j.periodEnd && i.cycle == j.cycle
  }

  lemma EditedRows(before: seq<Invoice>, after: seq<Invoice>, now: int)
    requires InvoicesOk(before, now)
    requires |before| == |after|
    requires forall i :: 0 <= i < |before| ==> KeepsTerm(before[i], after[i]) && InvoiceOk(after[i], now)
    ensures InvoicesOk(after, now)
    ensures forall end :: RenewedBefore(before, end) ==> RenewedBefore(after, end)
  {
  }

  lemma AppendedRow(invoices: seq<Invoice>, row: Invoice, now: int)
    requires InvoicesOk(invoices, now) && InvoiceOk(row, now)
    requires row.kind == Renewal ==> RenewedBefore(invoices, row.periodStart)
    ensures InvoicesOk(invoices + [row], now)
    ensures OwesTerm(row) ==> HasUnpaidTerm(invoices + [row])
    ensures forall end :: RenewedBefore(invoices, end) && (row.kind == Renewal ==> row.periodStart < end)
                     ==> RenewedBefore(invoices + [row], end)
  {
    if OwesTerm(row) {
      assert OwesTerm((invoices + [row])[|invoices|]);
    }
  }

  /** Every renewal so far starts no later than the clock, so a period that ends after it is clear of them. */
  lemma FuturePeriodIsClear(invoices: seq<Invoice>, now: int, end: int)
    requires InvoicesOk(invoices, now) && now < end
    ensures RenewedBefore(invoices, end)
  {
  }

  // ----------------------------------------------- one action at a time

  lemma AssignKeeps(a: Account, dto: Ops.AssignInput, plans: Catalog, settings: Settings, now: int)
    requires Inv(a, now)
    ensures var r := Ops.Assign(a, dto, plans, settings, now); r.Ok? ==> Inv(r.value, now)
  {
    hide AddCycle;
    AddCycleIsLater(now, dto.cycle);
    if a.sub.None? && dto.planId in plans {
      var row := NewInvoice(Initial, dto.cycle, now, AddCycle(now, dto.cycle), PriceFor(plans[dto.planId], dto.cycle));
      if row.amount > 0 {
        AppendedRow(a.invoices, row, now);
        AppendedRow(a.invoices, SettleInvoice(row), now);
      }
    }
  }

  lemma BillableRounds(x: Amount)
    requires x.den > 0 && Billable(x)
    ensures Round2(x) > 0
  {
  }

  lemma ChangePlanKeeps(a: Account, dto: Ops.ChangeInput, plans: Catalog, settings: Settings, now: int)
    requires Inv(a, now) && Known(a, plans)
    ensures var r := Ops.ChangePlan(a, dto, plans, settings, now); r.Ok? ==> Inv(r.value, now)
  {
    hide AddCycle, Ops.IsUpgrade, Ops.AppliesNow, PriceFor, Round2;
    var r := Ops.ChangePlan(a, dto, plans, settings, now);
    if r.Ok? && r.value.invoices != a.invoices {
      var sub := a.sub.value;
      var cycle := dto.cycle.GetOr(sub.cycle);
      AddCycleIsLater(now, cycle);
      var x := Ops.UpgradeAmount(sub, plans[sub.planId], plans[dto.planId], cycle, now);
      BillableRounds(x);
      FuturePeriodIsClear(a.invoices, now, AddCycle(now, cycle));
      AppendedRow(a.invoices, r.value.invoices[|a.invoices|], now);
    } else if r.Ok? {
      AddCycleIsLater(now, dto.cycle.GetOr(a.sub.value.cycle));
      FuturePeriodIsClear(a.invoices, now, AddCycle(now, dto.cycle.GetOr(a.sub.value.cycle)));
    }
  }

  lemma ExtendKeeps(a: Account, days: Days, now: int)
    requires Inv(a, now)
    ensures var r := Ops.Extend(a, days, now); r.Ok? ==> Inv(r.value, now)
  {
    var r := Ops.Extend(a, days, now);
    if r.Ok? && a.sub.value.status == Expired {
      FuturePeriodIsClear(a.invoices, now, r.value.sub.value.currentPeriodEnd);
    }
  }

  lemma CancelKeeps(a: Account, periodEnd: bool, now: int)
    requires Inv(a, now)
    ensures var r := Ops.Cancel(a, periodEnd, now); r.Ok? ==> Inv(r.value, now)
  {
    var r := Ops.Cancel(a, periodEnd, now);
    if r.Ok? {
      EditedRows(a.invoices, MapRows(a.invoices, VoidIfUnpaid), now);
    }
  }

  lemma PaidPeriodOk(sub: Subscription, paid: Invoice, invoices: seq<Invoice>, now: int)
    requires InvoicesOk(invoices, now) && InvoiceOk(paid, now)
    ensures var s := Ops.PaidPeriod(sub, paid, now);
            && s.currentPeriodStart < s.currentPeriodEnd && s.currentPeriodStart <= now < s.currentPeriodEnd
            && RenewedBefore(invoices, s.currentPeriodEnd)
  {
    hide AddCycle;
    AddCycleIsLater(now, paid.cycle);
    FuturePeriodIsClear(invoices, now, Ops.PaidPeriod(sub, paid, now).currentPeriodEnd);
  }

  lemma MarkPaidKeeps(a: Account, chosen: Option<nat>, now: int)
    requires Inv(a, now)
    ensures var r := Ops.MarkPaid(a, chosen, now); r.Ok? ==> Inv(r.value, now)
  {
    hide AddCycle, Ops.PaidPeriod, FirstIndex;
    var r := Ops.MarkPaid(a, chosen, now);
    if r.Ok? {
      var k := chosen.GetOr(OldestUnpaid(a.invoices));
      var rows := a.invoices[k := SettleInvoice(a.invoices[k])];
      EditedRows(a.invoices, rows, now);
      PaidPeriodOk(a.sub.value, rows[k], rows, now);
      PaidPeriodFrame(a.sub.value, rows[k], now);
      if rows[k].kind == Upgrade {
        OtherTermStillOwed(a.invoices, k, SettleInvoice(a.invoices[k]));
      }
    }
  }

  /** Only the period moves. */
  lemma PaidPeriodFrame(sub: Subscription, paid: Invoice, now: int)
    ensures var s := Ops.PaidPeriod(sub, paid, now);
            s == sub.(currentPeriodStart := s.currentPeriodStart, currentPeriodEnd := s.currentPeriodEnd)
  {
    hide AddCycle;
  }

  lemma OtherTermStillOwed(invoices: seq<Invoice>, k: nat, row: Invoice)
    requires k < |invoices| && (OwesTerm(invoices[k]) ==> OwesTerm(row))
    ensures HasUnpaidTerm(invoices) ==> HasUnpaidTerm(invoices[k := row])
  {
    if HasUnpaidTerm(invoices) {
      var j :| 0 <= j < |invoices| && OwesTerm(invoices[j]);
      assert OwesTerm(invoices[k := row][j]);
    }
  }

  lemma RefundKeepsMoney(i: Invoice, value: int)
    requires MoneyOk(i)
    ensures var r := Ops.RefundInvoice(i, value); r.Ok? ==> MoneyOk(r.value)
  {
    hide Sum;
    SumNext(i.refunds, value);
  }

  lemma SumNext(s: seq<int>, value: int)
    ensures Sum(s + [value]) == Sum(s) + value
  {
    assert (s + [value])[..|s|] == s;
  }

  lemma RefundKeeps(a: Account, k: nat, value: int, now: int)
    requires Inv(a, now)
    ensures var r := Ops.Refund(a, k, value); r.Ok? ==> Inv(r.value, now)
  {
    hide MoneyOk, Sum;
    var r := Ops.Refund(a, k, value);
    if r.Ok? {
      RefundKeepsMoney(a.invoices[k], value);
      EditedRows(a.invoices, r.value.invoices, now);
      OtherTermStillOwed(a.invoices, k, r.value.invoices[k]);
    }
  }

  lemma ForceReactivateKeeps(a: Account, days: Option<Days>, now: int)
    requires Inv(a, now)
    ensures var r := Ops.ForceReactivate(a, days, now); r.Ok? ==> Inv(r.value, now)
  {
    hide AddCycle;
    var r := Ops.ForceReactivate(a, days, now);
    if r.Ok? {
      AddCycleIsLater(now, a.sub.value.cycle);
      FuturePeriodIsClear(a.invoices, now, r.value.sub.value.currentPeriodEnd);
    }
  }

  // --------------------------------------------------------- automation

  lemma EndOfTermKeeps(a: Account, env: Ops.Env)
    requires Inv(a, env.now) && a.sub.Some? && Known(a, env.plans) && !a.sub.value.automationPaused
    requires a.sub.value.status in {Trial, Active} && Ops.RenewalStart(a.sub.value) <= env.now
    ensures Inv(Ops.EndOfTerm(a, env), env.now)
  {
    hide AddCycle, InvoicesOk, InvoiceOk, HasUnpaidTerm, PriceFor;
    var sub := a.sub.value;
    var planned := Ops.WithPendingChange(sub, env.plans);
    var start := Ops.RenewalStart(sub);
    var price := PriceFor(env.plans[planned.planId], planned.cycle);
    AddCycleIsLater(start, planned.cycle);
    assert start == sub.currentPeriodEnd;
    if price > 0 {
      var row := NewInvoice(Renewal, planned.cycle, start, AddCycle(start, planned.cycle), price);
      RenewalRowOk(row, env);
      AppendedRow(a.invoices, row, env.now);
      AppendedRow(a.invoices, SettleInvoice(row), env.now);
      AppendedRow(a.invoices, Ops.Declined(row, env.settings, env.now), env.now);
    }
  }

  lemma RenewalRowOk(row: Invoice, env: Ops.Env)
    requires row == NewInvoice(Renewal, row.cycle, row.periodStart, row.periodEnd, row.amount)
    requires row.amount > 0 && row.periodStart < row.periodEnd && row.periodStart <= env.now
    ensures InvoiceOk(row, env.now)
    ensures InvoiceOk(SettleInvoice(row), env.now)
    ensures InvoiceOk(Ops.Declined(row, env.settings, env.now), env.now)
  {
  }

  lemma RetryPaymentKeeps(a: Account, env: Ops.Env)
    requires Inv(a, env.now) && Ops.HasStatus(a, PaymentPending)
    ensures Inv(Ops.RetryPayment(a, env), env.now)
  {
    hide AddCycle, Ops.PaidPeriod, FirstIndex, MoneyOk;
    var k := OldestDue(a.invoices, env.now);
    if k < |a.invoices| {
      var paid, tried := SettleInvoice(a.invoices[k]), Ops.RetryFailed(a.invoices[k], env.settings, env.now);
      RetriedRowOk(a.invoices[k], env);
      EditedRows(a.invoices, a.invoices[k := paid], env.now);
      EditedRows(a.invoices, a.invoices[k := tried], env.now);
      PaidPeriodOk(a.sub.value, a.invoices[k], a.invoices[k := paid], env.now);
      PaidPeriodFrame(a.sub.value, a.invoices[k], env.now);
      OtherTermStillOwed(a.invoices, k, tried);
    }
  }

  lemma RetriedRowOk(i: Invoice, env: Ops.Env)
    requires InvoiceOk(i, env.now) && RetryDue(i, env.now)
    ensures InvoiceOk(SettleInvoice(i), env.now)
    ensures InvoiceOk(Ops.RetryFailed(i, env.settings, env.now), env.now)
  {
  }

  lemma ToPastDueKeeps(a: Account, now: int)
    requires Inv(a, now) && Ops.HasStatus(a, PaymentPending)
    ensures Inv(Ops.ToPastDue(a, now), now)
  {
    var rows := MapRows(a.invoices, FailIfOpen);
    EditedRows(a.invoices, rows, now);
    var k :| 0 <= k < |a.invoices| && OwesTerm(a.invoices[k]);
    assert OwesTerm(rows[k]);
  }

  lemma DunningKeeps(a: Account, env: Ops.Env)
    requires Inv(a, env.now) && a.sub.Some?
    ensures Inv(Ops.Dunning(a, env), env.now)
  {
    hide InvoicesOk, SubscriptionOk, Ops.RetryPayment, Ops.ToPastDue;
    var retried := if Ops.HasStatus(a, PaymentPending) then Ops.RetryPayment(a, env) else a;
    if Ops.HasStatus(a, PaymentPending) {
      RetryPaymentKeeps(a, env);
    }
    if Ops.HasStatus(retried, PaymentPending) {
      ToPastDueKeeps(retried, env.now);
    }
    SuspendKeeps(Ops.GraceCheck(retried, env.now), env);
  }

  lemma SuspendKeeps(a: Account, env: Ops.Env)
    requires Inv(a, env.now)
    ensures Inv(Ops.SuspendCheck(a, env), env.now)
  {
  }

  lemma LifecycleKeeps(a: Account, env: Ops.Env)
    requires Inv(a, env.now) && a.sub.Some? && Known(a, env.plans) && !a.sub.value.automationPaused
    ensures Inv(Ops.Lifecycle(a, env), env.now)
  {
    hide InvoicesOk, SubscriptionOk, Ops.EndOfTerm, Ops.Dunning;
    var sub := a.sub.value;
    if sub.status in {Trial, Active} && Ops.RenewalStart(sub) <= env.now {
      EndOfTermKeeps(a, env);
      DunningKeeps(Ops.EndOfTerm(a, env), env);
    }
    DunningKeeps(a, env);
  }

  lemma AutomationKeeps(a: Account, env: Ops.Env)
    requires Inv(a, env.now) && Known(a, env.plans)
    ensures Inv(Ops.Automation(a, env), env.now)
  {
    hide InvoicesOk, Ops.Lifecycle;
    if a.sub.Some? {
      assert Inv(Ops.Unpaused(a), env.now);
      LifecycleKeeps(Ops.Unpaused(a), env);
      if !a.sub.value.automationPaused {
        LifecycleKeeps(a, env);
      }
    }
  }

  // ---------------------------------------------------------- every run

  /** Every admin action and every billing run keeps the whole record invariant. */
  lemma StepKeeps(a: Account, e: Event)
    requires Inv(a, e.now)
    ensures Inv(Step(a, e), e.now)
  {
    hide Inv, Ops.Assign, Ops.ChangePlan, Ops.Extend, Ops.Cancel, Ops.MarkPaid, Ops.Refund, Ops.ForceReactivate,
         Ops.Automation;
    if Known(a, e.plans) {
      match e.action
      case Assign(dto) => AssignKeeps(a, dto, e.plans, e.settings, e.now);
      case ChangePlan(dto) => ChangePlanKeeps(a, dto, e.plans, e.settings, e.now);
      case Extend(days) => ExtendKeeps(a, days, e.now);
      case Cancel(periodEnd) => CancelKeeps(a, periodEnd, e.now);
      case MarkPaid(chosen) => MarkPaidKeeps(a, chosen, e.now);
      case Refund(k, value) => RefundKeeps(a, k, value, e.now);
      case ForceReactivate(days) => ForceReactivateKeeps(a, days, e.now);
      case Automation(gateway) => AutomationKeeps(a, Ops.Env(e.plans, e.settings, e.now, gateway));
      case _ => SmallActionKeeps(a, e);
    }
  }

  lemma SmallActionKeeps(a: Account, e: Event)
    requires Inv(a, e.now) && Known(a, e.plans)
    requires e.action.CancelScheduledChange? || e.action.ExtendGrace? || e.action.Resume? || e.action.ForceSuspend?
          || e.action.ReleaseOverride? || e.action.SetAutoRenew?
    ensures Inv(Step(a, e), e.now)
  {
    hide InvoicesOk;
  }

  lemma {:induction false} RunKeeps(a: Account, clock: int, trace: seq<Event>)
    requires Inv(a, clock) && Timely(clock, trace)
    ensures Inv(Run(a, trace), LastClock(clock, trace))
    decreases |trace|
  {
    hide Inv, Step;
    if trace != [] {
      InvLater(a, clock, trace[0].now);
      StepKeeps(a, trace[0]);
      RunKeeps(Step(a, trace[0]), trace[0].now, trace[1..]);
    }
  }

  /** No term is billed twice: over any run of a new shop, renewal invoices start later and later, never in the future. */
  lemma RenewalsNeverRepeat(clock: int, trace: seq<Event>)
    requires Timely(clock, trace)
    ensures var a := Run(NewAccount, trace);
            RenewalsAdvance(a.invoices) && Inv(a, LastClock(clock, trace))
  {
    RunKeeps(NewAccount, clock, trace);
  }
}
