/** When the terms of two renewal invoices can overlap. */
module BillingTerms {
  import opened Calendar
  import opened BillingModel
  import opened Options
  import Ops = BillingOps
  import opened BillingRuns

  ghost predicate RenewalsDisjoint(invoices: seq<Invoice>) {
    forall i, j :: 0 <= i < j < |invoices| && invoices[i].kind == Renewal && invoices[j].kind == Renewal
      ==> invoices[i].periodEnd <= invoices[j].periodStart
  }

  ghost predicate RenewedUntil(invoices: seq<Invoice>, end: int) {
    forall i :: 0 <= i < |invoices| && invoices[i].kind == Renewal ==> invoices[i].periodEnd <= end
  }

  ghost predicate NothingOwed(invoices: seq<Invoice>) {
    forall i :: 0 <= i < |invoices| ==> !OwesTerm(invoices[i])
  }

  /** At most one term is owed, and it is the last one billed. */
  ghost predicate OneOwed(invoices: seq<Invoice>) {
    forall k :: 0 <= k < |invoices| && OwesTerm(invoices[k]) ==>
      && RenewedUntil(invoices, invoices[k].periodEnd)
      && forall j :: 0 <= j < |invoices| && j != k ==> !OwesTerm(invoices[j])
  }

  ghost predicate TermsInOrder(a: Account) {
    && RenewalsDisjoint(a.invoices)
    && OneOwed(a.invoices)
    && (a.sub.Some? && a.sub.value.status in {Trial, Active, Expired} ==>
          RenewedUntil(a.invoices, a.sub.value.currentPeriodEnd) && NothingOwed(a.invoices))
  }

  /** Neither a forced reactivation nor a change to another cycle in mid-term. */
  predicate Ordinary(a: Account, e: Event) {
    && !e.action.ForceReactivate?
    && (e.action.ChangePlan? && a.sub.Some? && Step(a, e).sub.Some? ==>
          Step(a, e).sub.value.currentPeriodEnd == a.sub.value.currentPeriodEnd)
  }

  predicate AllOrdinary(a: Account, trace: seq<Event>)
    decreases |trace|
  {
    trace == [] || (Ordinary(a, trace[0]) && AllOrdinary(Step(a, trace[0]), trace[1..]))
  }

  // ------------------------------------------------------- row changes

  lemma SettledRow(invoices: seq<Invoice>, k: nat)
    requires k < |invoices| && OneOwed(invoices) && RenewalsDisjoint(invoices)
    ensures var rows := invoices[k := SettleInvoice(invoices[k])];
            && RenewalsDisjoint(rows) && OneOwed(rows)
            && (OwesTerm(invoices[k]) ==> NothingOwed(rows) && RenewedUntil(rows, invoices[k].periodEnd))
            && forall end :: RenewedUntil(invoices, end) ==> RenewedUntil(rows, end)
  {
  }

  /** A row edit that neither moves a term nor makes it owed. */
  lemma EditedTerms(before: seq<Invoice>, after: seq<Invoice>)
    requires |before| == |after|
    requires forall k :: 0 <= k < |before| ==>
               KeepsTerm(before[k], after[k]) && (OwesTerm(after[k]) ==> OwesTerm(before[k]))
    ensures RenewalsDisjoint(before) ==> RenewalsDisjoint(after)
    ensures OneOwed(before) ==> OneOwed(after)
    ensures NothingOwed(before) ==> NothingOwed(after)
    ensures forall end :: RenewedUntil(before, end) ==> RenewedUntil(after, end)
  {
    assert forall end :: RenewedUntil(before, end) ==> RenewedUntil(after, end);
  }

  lemma AppendedTerm(invoices: seq<Invoice>, row: Invoice)
    requires RenewalsDisjoint(invoices) && OneOwed(invoices)
    requires row.kind == Renewal ==> RenewedUntil(invoices, row.periodStart) && NothingOwed(invoices)
    requires row.kind == Initial ==> invoices == []
    requires row.periodStart < row.periodEnd
    ensures RenewalsDisjoint(invoices + [row]) && OneOwed(invoices + [row])
    ensures NothingOwed(invoices) && !OwesTerm(row) ==> NothingOwed(invoices + [row])
    ensures row.kind == Renewal ==> RenewedUntil(invoices + [row], row.periodEnd)
    ensures row.kind != Renewal ==> forall end :: RenewedUntil(invoices, end) ==> RenewedUntil(invoices + [row], end)
  {
    var rows := invoices + [row];
    assert forall end :: RenewedUntil(invoices, end) && (row.kind == Renewal ==> row.periodEnd <= end)
                    ==> RenewedUntil(rows, end);
    if row.kind == Renewal {
      assert RenewedUntil(invoices, row.periodEnd);
    }
    forall k | 0 <= k < |rows| && OwesTerm(rows[k])
      ensures RenewedUntil(rows, rows[k].periodEnd) && forall j :: 0 <= j < |rows| && j != k ==> !OwesTerm(rows[j])
    {
      if k < |invoices| {
        assert OwesTerm(invoices[k]);
      }
    }
  }

  // ----------------------------------------------------------- actions

  lemma AssignTerms(a: Account, dto: Ops.AssignInput, plans: Catalog, settings: Settings, now: int)
    requires Inv(a, now)
    ensures var r := Ops.Assign(a, dto, plans, settings, now); r.Ok? ==> TermsInOrder(r.value)
  {
    hide AddCycle;
    AddCycleIsLater(now, dto.cycle);
    if a.sub.None? && dto.planId in plans {
      var row := NewInvoice(Initial, dto.cycle, now, AddCycle(now, dto.cycle), PriceFor(plans[dto.planId], dto.cycle));
      AppendedTerm(a.invoices, row);
      AppendedTerm(a.invoices, SettleInvoice(row));
    }
  }

  lemma ChangePlanTerms(a: Account, e: Event)
    requires Inv(a, e.now) && TermsInOrder(a) && Known(a, e.plans) && e.action.ChangePlan? && Ordinary(a, e)
    ensures TermsInOrder(Step(a, e))
  {
    hide AddCycle, Ops.IsUpgrade, Ops.AppliesNow, PriceFor, Round2, RenewalsDisjoint, OneOwed, RenewedUntil, NothingOwed,
         Inv;
    var rows := Step(a, e).invoices;
    ChangePlanRows(a, e);
    if rows != a.invoices {
      AppendedTerm(a.invoices, rows[|a.invoices|]);
    }
  }

  lemma ChangePlanRows(a: Account, e: Event)
    requires Inv(a, e.now) && Known(a, e.plans) && e.action.ChangePlan?
    ensures var rows := Step(a, e).invoices;
            rows != a.invoices ==>
              && |rows| == |a.invoices| + 1 && rows == a.invoices + [rows[|a.invoices|]]
              && rows[|a.invoices|].kind == Upgrade && rows[|a.invoices|].periodStart < rows[|a.invoices|].periodEnd
  {
    hide AddCycle, Ops.IsUpgrade, Ops.AppliesNow, PriceFor, Round2, InvoicesOk;
    if a.sub.Some? {
      AddCycleIsLater(e.now, e.action.change.cycle.GetOr(a.sub.value.cycle));
    }
  }

  lemma PaidEnd(sub: Subscription, paid: Invoice, now: int)
    ensures paid.periodEnd <= Ops.PaidPeriod(sub, paid, now).currentPeriodEnd
  {
    hide AddCycle;
    AddCycleIsLater(now, paid.cycle);
  }

  lemma MarkPaidTerms(a: Account, chosen: Option<nat>, now: int)
    requires TermsInOrder(a)
    ensures var r := Ops.MarkPaid(a, chosen, now); r.Ok? ==> TermsInOrder(r.value)
  {
    hide AddCycle, Ops.PaidPeriod, FirstIndex;
    var r := Ops.MarkPaid(a, chosen, now);
    if r.Ok? {
      var k := chosen.GetOr(OldestUnpaid(a.invoices));
      var paid := SettleInvoice(a.invoices[k]);
      EditedTerms(a.invoices, a.invoices[k := paid]);
      SettledRow(a.invoices, k);
      PaidEnd(a.sub.value, paid, now);
      PaidPeriodFrame(a.sub.value, paid, now);
    }
  }

  lemma EndOfTermTerms(a: Account, env: Ops.Env)
    requires Inv(a, env.now) && TermsInOrder(a) && a.sub.Some? && Known(a, env.plans)
    requires a.sub.value.status in {Trial, Active}
    ensures TermsInOrder(Ops.EndOfTerm(a, env))
  {
    hide AddCycle, PriceFor, RenewalsDisjoint, OneOwed, NothingOwed, InvoicesOk;
    var sub := a.sub.value;
    var planned := Ops.WithPendingChange(sub, env.plans);
    var start := sub.currentPeriodEnd;
    AddCycleIsLater(start, planned.cycle);
    var price := PriceFor(env.plans[planned.planId], planned.cycle);
    var row := NewInvoice(Renewal, planned.cycle, start, AddCycle(start, planned.cycle), price);
    AppendedTerm(a.invoices, row);
    AppendedTerm(a.invoices, SettleInvoice(row));
    AppendedTerm(a.invoices, Ops.Declined(row, env.settings, env.now));
  }

  lemma RetryTerms(a: Account, env: Ops.Env)
    requires Inv(a, env.now) && TermsInOrder(a) && Ops.HasStatus(a, PaymentPending)
    ensures TermsInOrder(Ops.RetryPayment(a, env))
  {
    hide AddCycle, Ops.PaidPeriod, FirstIndex, SubscriptionOk, MoneyOk;
    var k := OldestDue(a.invoices, env.now);
    if k < |a.invoices| {
      assert OwesTerm(a.invoices[k]) by { assert InvoiceOk(a.invoices[k], env.now); }
      SettledRow(a.invoices, k);
      EditedTerms(a.invoices, a.invoices[k := Ops.RetryFailed(a.invoices[k], env.settings, env.now)]);
      PaidEnd(a.sub.value, a.invoices[k], env.now);
      PaidPeriodFrame(a.sub.value, a.invoices[k], env.now);
    }
  }

  lemma DunningTerms(a: Account, env: Ops.Env)
    requires Inv(a, env.now) && TermsInOrder(a) && a.sub.Some?
    ensures TermsInOrder(Ops.Dunning(a, env))
  {
    hide Inv, RenewalsDisjoint, OneOwed, RenewedUntil, NothingOwed, Ops.RetryPayment;
    var retried := if Ops.HasStatus(a, PaymentPending) then Ops.RetryPayment(a, env) else a;
    if Ops.HasStatus(a, PaymentPending) {
      RetryTerms(a, env);
    }
    EditedTerms(retried.invoices, MapRows(retried.invoices, FailIfOpen));
  }

  lemma AutomationTerms(a: Account, env: Ops.Env)
    requires Inv(a, env.now) && TermsInOrder(a) && Known(a, env.plans)
    ensures TermsInOrder(Ops.Automation(a, env))
  {
    hide Inv, RenewalsDisjoint, OneOwed, RenewedUntil, NothingOwed, Ops.EndOfTerm, Ops.Dunning;
    if a.sub.Some? {
      var b := if a.sub.value.automationPaused && Ops.OverrideOver(a.sub.value, env.now) then Ops.Unpaused(a) else a;
      UnpausedInv(a, env.now);
      if b.sub.value.status in {Trial, Active} && Ops.RenewalStart(b.sub.value) <= env.now && !b.sub.value.automationPaused {
        EndOfTermTerms(b, env);
        EndOfTermKeeps(b, env);
        DunningTerms(Ops.EndOfTerm(b, env), env);
      }
      DunningTerms(b, env);
    }
  }

  lemma UnpausedInv(a: Account, now: int)
    requires Inv(a, now) && a.sub.Some?
    ensures Inv(Ops.Unpaused(a), now)
    ensures a.sub.value.status == Active ==> Ops.RenewalStart(a.sub.value) == a.sub.value.currentPeriodEnd
  {
    hide InvoicesOk;
  }

  lemma OrdinaryStepKeepsOrder(a: Account, e: Event)
    requires Inv(a, e.now) && TermsInOrder(a) && Ordinary(a, e)
    ensures TermsInOrder(Step(a, e))
  {
    hide Inv, Ordinary;
    if Known(a, e.plans) {
      match e.action
      case Assign(dto) => AssignTerms(a, dto, e.plans, e.settings, e.now);
      case ChangePlan(_) => ChangePlanTerms(a, e);
      case MarkPaid(chosen) => MarkPaidTerms(a, chosen, e.now);
      case Automation(gateway) => AutomationTerms(a, Ops.Env(e.plans, e.settings, e.now, gateway));
      case _ => SmallActionTerms(a, e);
    }
  }

  lemma SmallActionTerms(a: Account, e: Event)
    requires TermsInOrder(a) && Known(a, e.plans)
    requires !e.action.Assign? && !e.action.ChangePlan? && !e.action.MarkPaid? && !e.action.Automation? && Ordinary(a, e)
    ensures TermsInOrder(Step(a, e))
  {
    if e.action.Cancel? {
      EditedTerms(a.invoices, MapRows(a.invoices, VoidIfUnpaid));
    } else if e.action.Refund? && e.action.invoice < |a.invoices| {
      var r := Ops.RefundInvoice(a.invoices[e.action.invoice], e.action.value);
      if r.Ok? {
        EditedTerms(a.invoices, a.invoices[e.action.invoice := r.value]);
      }
    } else {
      hide RenewalsDisjoint, OneOwed, NothingOwed, Ordinary;
    }
  }

  lemma {:induction false} OrdinaryRunKeepsOrder(a: Account, clock: int, trace: seq<Event>)
    requires Inv(a, clock) && TermsInOrder(a) && Timely(clock, trace) && AllOrdinary(a, trace)
    ensures TermsInOrder(Run(a, trace))
    decreases |trace|
  {
    hide Inv, TermsInOrder, Step, Ordinary;
    if trace != [] {
      InvLater(a, clock, trace[0].now);
      StepKeeps(a, trace[0]);
      OrdinaryStepKeepsOrder(a, trace[0]);
      OrdinaryRunKeepsOrder(Step(a, trace[0]), trace[0].now, trace[1..]);
    }
  }

  /** Without forced reactivations and mid-term cycle changes, no two renewal invoices cover a common instant. */
  lemma OrdinaryRenewalsNeverOverlap(clock: int, trace: seq<Event>)
    requires Timely(clock, trace) && AllOrdinary(NewAccount, trace)
    ensures RenewalsDisjoint(Run(NewAccount, trace).invoices)
  {
    OrdinaryRunKeepsOrder(NewAccount, clock, trace);
  }

  /** A renewal keeps the terms apart exactly when every term billed before ends with the current period. */
  lemma RenewalOverlapsExactly(a: Account, env: Ops.Env)
    requires Inv(a, env.now) && RenewalsDisjoint(a.invoices) && a.sub.Some? && Known(a, env.plans)
    requires a.sub.value.status in {Trial, Active} && |Ops.EndOfTerm(a, env).invoices| > |a.invoices|
    ensures RenewalsDisjoint(Ops.EndOfTerm(a, env).invoices) <==> RenewedUntil(a.invoices, a.sub.value.currentPeriodEnd)
  {
    hide AddCycle, InvoicesOk;
    var rows := Ops.EndOfTerm(a, env).invoices;
    var n := |a.invoices|;
    assert rows[n].kind == Renewal && rows[n].periodStart == a.sub.value.currentPeriodEnd;
    assert forall i :: 0 <= i < n ==> rows[i] == a.invoices[i];
  }

  // ----------------------------------------------------------- overlap

  /** One plan: 10 paise a day, 200 a month. */
  const DAILY_PLAN := Plan(10, 200, 2000, 0, true)

  const HOUR_MS := 3_600_000

  function At(hours: int, action: Action): Event {
    Event(hours * HOUR_MS, map[0 := DAILY_PLAN], Settings(5, 7, 3, 1, true, false), action)
  }

  /** An unpaid day, a forced reactivation, a change to monthly billing, and then the old day is paid. */
  function OverlapRun(): seq<Event> {
    [ At(0, Action.Assign(Ops.AssignInput(0, Daily, false, true, true))),
      At(24, Automation(Ops.NoGateway)),
      At(30, ForceReactivate(None)),
      At(31, ReleaseOverride),
      At(32, ChangePlan(Ops.ChangeInput(0, Some(Monthly), None))),
      At(54, Automation(Ops.NoGateway)),
      At(60, MarkPaid(None)),
      At(84, Automation(Ops.NoGateway)) ]
  }

  function DaySub(status: Status, start: int, end: int): Subscription {
    Subscription(0, Daily, status, start * HOUR_MS, end * HOUR_MS, None, None, None, true, false, None, None, None,
                 false, None)
  }

  function DayRow(kind: InvoiceKind, start: int, end: int, status: InvoiceStatus): Invoice {
    NewInvoice(kind, Daily, start * HOUR_MS, end * HOUR_MS, 10).(status := status)
  }

  function MonthRow(start: int): Invoice {
    NewInvoice(Renewal, Monthly, start * HOUR_MS, AddCycle(start * HOUR_MS, Monthly), 200)
  }

  /** The account before, between and after the actions of `OverlapRun`. */
  function OverlapState(n: nat): Account
    requires n <= 8
  {
    var initial, renewal, monthly := DayRow(Initial, 0, 24, Paid), DayRow(Renewal, 24, 48, Open), MonthRow(54);
    var late := DaySub(PaymentPending, 30, 54).(cycle := Monthly, graceEndsAt := Some(174 * HOUR_MS));
    if n == 0 then NewAccount
    else if n == 1 then Account(Some(DaySub(Active, 0, 24)), [initial])
    else if n == 2 then
      Account(Some(DaySub(PaymentPending, 0, 24).(graceEndsAt := Some(144 * HOUR_MS))), [initial, renewal])
    else if n == 3 then Account(Some(DaySub(Active, 30, 54).(automationPaused := true)), [initial, renewal])
    else if n == 4 then Account(Some(DaySub(Active, 30, 54)), [initial, renewal])
    else if n == 5 then
      Account(Some(DaySub(Active, 30, 54).(pendingPlanId := Some(0), pendingCycle := Some(Monthly))), [initial, renewal])
    else if n == 6 then Account(Some(late), [initial, renewal, monthly])
    else if n == 7 then
      Account(Some(DaySub(Active, 60, 84).(cycle := Monthly)), [initial, SettleInvoice(renewal), monthly])
    else
      Account(Some(late.(currentPeriodStart := 60 * HOUR_MS, currentPeriodEnd := 84 * HOUR_MS,
                         graceEndsAt := Some(204 * HOUR_MS))),
              [initial, SettleInvoice(renewal), monthly, MonthRow(84)])
  }

  lemma DayCycle(hours: int)
    ensures AddCycle(hours * HOUR_MS, Daily) == (hours + 24) * HOUR_MS
  {
  }

  lemma OverlapAssign()
    ensures Step(OverlapState(0), OverlapRun()[0]) == OverlapState(1)
  {
    hide AddCycle, FirstIndex;
    DayCycle(0);
  }

  lemma OverlapFirstRenewal()
    ensures Step(OverlapState(1), OverlapRun()[1]) == OverlapState(2)
  {
    hide AddCycle, FirstIndex, Ops.Assign;
    DayCycle(24);
  }

  lemma OverlapForced()
    ensures Step(OverlapState(2), OverlapRun()[2]) == OverlapState(3)
    ensures Step(OverlapState(3), OverlapRun()[3]) == OverlapState(4)
    ensures Step(OverlapState(4), OverlapRun()[4]) == OverlapState(5)
  {
    hide AddCycle;
    DayCycle(30);
  }

  lemma OverlapMonthly()
    ensures Step(OverlapState(5), OverlapRun()[5]) == OverlapState(6)
  {
    hide AddCycle, FirstIndex, MapRows;
  }

  lemma OverlapSecondMonthly()
    ensures Step(OverlapState(7), OverlapRun()[7]) == OverlapState(8)
  {
    hide AddCycle, FirstIndex, MapRows;
  }

  lemma OverlapPayment()
    ensures Step(OverlapState(6), OverlapRun()[6]) == OverlapState(7)
  {
    hide AddCycle;
    DayCycle(60);
    var rows := OverlapState(6).invoices;
    assert OldestUnpaid(rows) == 1;
  }

  lemma {:induction false} RunThrough(states: seq<Account>, trace: seq<Event>)
    requires |states| == |trace| + 1
    requires forall k :: 0 <= k < |trace| ==> Step(states[k], trace[k]) == states[k + 1]
    ensures Run(states[0], trace) == states[|trace|]
    decreases |trace|
  {
    hide Step;
    if trace != [] {
      RunThrough(states[1..], trace[1..]);
    }
  }

  /** With them, a shop can be billed twice for the same days: two unpaid monthly renewals that overlap. */
  lemma ForcedRenewalsCanOverlap()
    ensures Timely(0, OverlapRun())
    ensures var a := Run(NewAccount, OverlapRun());
            RenewalsAdvance(a.invoices) && !RenewalsDisjoint(a.invoices)
  {
    hide Step, OverlapRun;
    OverlapTimely();
    RenewalsNeverRepeat(0, OverlapRun());
    OverlapEnd();
    LastTwoOverlap();
  }

  lemma LastTwoOverlap()
    ensures !RenewalsDisjoint(OverlapState(8).invoices)
  {
    hide AddCycle;
    var rows := OverlapState(8).invoices;
    assert rows[2] == MonthRow(54) && rows[3] == MonthRow(84);
    AddCycleBounds(54 * HOUR_MS, Monthly);
  }

  lemma OverlapSteps(k: nat)
    requires k < 8
    ensures |OverlapRun()| == 8 && Step(OverlapState(k), OverlapRun()[k]) == OverlapState(k + 1)
  {
    hide Step, OverlapState, OverlapRun;
    OverlapClock();
    if k < 2 {
      OverlapAssign();
      OverlapFirstRenewal();
    } else if k < 5 {
      OverlapForced();
    } else if k == 6 {
      OverlapPayment();
    } else {
      OverlapMonthly();
      OverlapSecondMonthly();
    }
  }

  lemma OverlapEnd()
    ensures Run(NewAccount, OverlapRun()) == OverlapState(8)
  {
    hide Step, OverlapState, OverlapRun;
    OverlapClock();
    OverlapZero();
    var states := seq(9, n requires 0 <= n < 9 => OverlapState(n));
    forall k | 0 <= k < 8 ensures Step(states[k], OverlapRun()[k]) == states[k + 1] {
      OverlapSteps(k);
    }
    RunThrough(states, OverlapRun());
  }

  lemma OverlapZero()
    ensures OverlapState(0) == NewAccount
  {
  }

  lemma OverlapTimely()
    ensures Timely(0, OverlapRun())
  {
    hide OverlapRun;
    var t := OverlapRun();
    OverlapClock();
    TimelyBySteps(0, t);
  }

  lemma OverlapClock()
    ensures |OverlapRun()| == 8
    ensures forall k :: 0 <= k < 8 ==> 0 <= OverlapRun()[k].now && (k > 0 ==> OverlapRun()[k - 1].now <= OverlapRun()[k].now)
  {
  }

  lemma {:induction false} TimelyBySteps(clock: int, trace: seq<Event>)
    requires trace != [] ==> clock <= trace[0].now
    requires forall k :: 0 < k < |trace| ==> trace[k - 1].now <= trace[k].now
    ensures Timely(clock, trace)
    decreases |trace|
  {
    if trace != [] {
      TimelyBySteps(trace[0].now, trace[1..]);
    }
  }
}
