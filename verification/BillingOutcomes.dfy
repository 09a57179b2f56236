/** What every action leaves in a shop's record, in terms of the record's own fields. */
module BillingOutcomes {
  import opened Calendar
  import opened BillingModel
  import opened Options
  import Ops = BillingOps
  import opened BillingRuns
  import opened BillingPayments
  import opened BillingTiming

  const MS_PER_DAY := 86_400_000

  /** The literal price field a cycle is billed at. */
  predicate Costs(plan: Plan, cycle: Cycle, price: int) {
    && (cycle == Daily ==> price == plan.dailyPrice)
    && (cycle == Monthly ==> price == plan.monthlyPrice)
    && (cycle == Yearly ==> price == plan.yearlyPrice)
  }

  // --------------------------------------------------------- end of a term

  /** A billing run that finds a trial or paid period over, with no override holding the shop. */
  predicate TermOver(a: Account, e: Event) {
    && e.action.Automation? && a.sub.Some? && a.sub.value.planId in e.plans
    && a.sub.value.status in {Trial, Active} && a.sub.value.currentPeriodEnd <= e.now
    && (a.sub.value.automationPaused ==> a.sub.value.pausedUntil.Some? && a.sub.value.pausedUntil.value <= e.now)
  }

  /** The plan and cycle due at the renewal: the scheduled ones, when that plan still exists. */
  predicate Due(s: Subscription, plans: Catalog, planId: PlanId, cycle: Cycle) {
    if s.pendingPlanId.Some? && s.pendingPlanId.value in plans then
      planId == s.pendingPlanId.value && cycle == s.pendingCycle.GetOr(s.cycle)
    else planId == s.planId && cycle == s.cycle
  }

  function EnvOf(e: Event): Ops.Env
    requires e.action.Automation?
  {
    Ops.Env(e.plans, e.settings, e.now, e.action.gateway)
  }

  /** The account after an override whose end has come is lifted. */
  function Released(a: Account): Account
    requires a.sub.Some?
  {
    if a.sub.value.automationPaused then Ops.Unpaused(a) else a
  }

  lemma TermStep(a: Account, e: Event)
    requires Inv(a, e.now) && TermOver(a, e)
    ensures var b := Released(a);
            && b.invoices == a.invoices && Ops.RenewalStart(b.sub.value) == a.sub.value.currentPeriodEnd
            && var ended := Ops.EndOfTerm(b, EnvOf(e));
               Step(a, e) == if a.sub.value.status == Trial then ended else Ops.Dunning(ended, EnvOf(e))
  {
    hide InvoicesOk, Ops.EndOfTerm, Ops.Dunning;
  }

  /** Retry, grace and suspension leave an account in any other status alone. */
  lemma NoDunning(a: Account, env: Ops.Env)
    requires a.sub.Some? && a.sub.value.status !in {PaymentPending, PastDue}
    ensures Ops.Dunning(a, env) == a
  {
    hide Ops.RetryPayment, Ops.ToPastDue;
  }

  /** A renewal that is free or goes through, apart from the override and the rest of the run. */
  lemma RenewedEnd(b: Account, e: Event, planId: PlanId, cycle: Cycle, price: int)
    requires b.sub.Some? && b.sub.value.planId in e.plans && b.sub.value.autoRenew && !b.sub.value.cancelAtPeriodEnd
    requires Due(b.sub.value, e.plans, planId, cycle) && planId in e.plans
    requires PriceFor(e.plans[planId], cycle) == price && e.action.Automation? && (price == 0 || Charged(e))
    ensures var r, start := Ops.EndOfTerm(b, EnvOf(e)), Ops.RenewalStart(b.sub.value); var n := |b.invoices|;
            && r.sub.Some? && r.sub.value.status == Active && r.sub.value.planId == planId && r.sub.value.cycle == cycle
            && r.sub.value.currentPeriodStart == start && r.sub.value.currentPeriodEnd == AddCycle(start, cycle)
            && (price == 0 ==> r.invoices == b.invoices)
            && (price > 0 ==> |r.invoices| == n + 1 && r.invoices[..n] == b.invoices
                              && RenewalRow(r.invoices[n], cycle, start, price) && r.invoices[n].status == Paid)
  {
    hide AddCycle, Ops.RenewalStart, PriceFor;
  }

  /** A shop that is ending, or that switched auto-renew off, is never billed for another term. */
  lemma TermEndsUnrenewed(a: Account, e: Event)
    requires Inv(a, e.now) && TermOver(a, e)
    requires a.sub.value.cancelAtPeriodEnd || !a.sub.value.autoRenew
    ensures var s, r := a.sub.value, Step(a, e);
            && r.invoices == a.invoices && r.sub.Some? && !r.sub.value.automationPaused
            && r.sub.value.planId == s.planId && r.sub.value.cycle == s.cycle
            && r.sub.value.currentPeriodEnd == s.currentPeriodEnd
            && (s.cancelAtPeriodEnd ==>
                  && r.sub.value.status == Cancelled && r.sub.value.cancelledAt == Some(e.now)
                  && !r.sub.value.cancelAtPeriodEnd && r.sub.value.pendingPlanId.None?)
            && (!s.cancelAtPeriodEnd ==> r.sub.value.status == Expired)
            && Access(r) == READ_ONLY
  {
    TermStep(a, e);
    hide AddCycle, Inv, Step, Ops.Dunning;
    NoDunning(Ops.EndOfTerm(Released(a), EnvOf(e)), EnvOf(e));
  }

  /** A free plan renews for one more cycle without an invoice. */
  lemma FreeTermRenews(a: Account, e: Event, planId: PlanId, cycle: Cycle)
    requires Inv(a, e.now) && TermOver(a, e) && a.sub.value.autoRenew && !a.sub.value.cancelAtPeriodEnd
    requires Due(a.sub.value, e.plans, planId, cycle) && planId in e.plans && Costs(e.plans[planId], cycle, 0)
    ensures var s, r := a.sub.value, Step(a, e);
            && r.invoices == a.invoices && r.sub.Some? && r.sub.value.status == Active
            && r.sub.value.planId == planId && r.sub.value.cycle == cycle
            && r.sub.value.currentPeriodStart == s.currentPeriodEnd
            && r.sub.value.currentPeriodEnd == AddCycle(s.currentPeriodEnd, cycle)
  {
    TermStep(a, e);
    PriceIs(e.plans[planId], cycle, 0);
    hide AddCycle, Inv, Step, Ops.Dunning, Ops.RenewalStart, Ops.EndOfTerm, PriceFor, Costs;
    RenewedEnd(Released(a), e, planId, cycle, 0);
    NoDunning(Ops.EndOfTerm(Released(a), EnvOf(e)), EnvOf(e));
  }

  predicate Charged(e: Event) {
    e.action.Automation? && e.action.gateway.Connected? && e.action.gateway.renewalOk
  }

  /** In the same run an older invoice of an active shop is due again, and its retry goes through. */
  ghost predicate OlderRetryPays(a: Account, e: Event) {
    && e.action.Automation? && e.action.gateway.Connected? && e.action.gateway.retryOk
    && Ops.HasStatus(a, Active)
    && exists k :: 0 <= k < |a.invoices| && RetryableFirst(a.invoices, k, e.now, e.settings.retryAttempts)
  }

  predicate AwaitsRetry(i: Invoice, now: int) {
    i.status == Open && i.nextRetryAt.Some? && i.nextRetryAt.value <= now
  }

  /** The oldest invoice whose retry date has come, with attempts left. */
  predicate RetryableFirst(invoices: seq<Invoice>, k: nat, now: int, attempts: nat) {
    && k < |invoices| && AwaitsRetry(invoices[k], now) && invoices[k].attemptCount <= attempts
    && forall j :: 0 <= j < k ==> !AwaitsRetry(invoices[j], now)
  }

  /** A row for the next term at the due plan's price. */
  predicate RenewalRow(row: Invoice, cycle: Cycle, start: int, price: int) {
    && row.kind == Renewal && row.cycle == cycle && row.amount == price
    && row.periodStart == start && row.periodEnd == AddCycle(start, cycle)
  }

  /** A priced plan is billed once for the next term, and a charge that goes through renews it. */
  lemma ChargedTermRenews(a: Account, e: Event, planId: PlanId, cycle: Cycle, price: int)
    requires Inv(a, e.now) && TermOver(a, e) && a.sub.value.autoRenew && !a.sub.value.cancelAtPeriodEnd
    requires Due(a.sub.value, e.plans, planId, cycle) && planId in e.plans && price > 0
    requires Costs(e.plans[planId], cycle, price) && Charged(e)
    ensures var s, r := a.sub.value, Step(a, e); var n := |a.invoices|;
            && |r.invoices| == n + 1 && r.invoices[..n] == a.invoices
            && RenewalRow(r.invoices[n], cycle, s.currentPeriodEnd, price) && r.invoices[n].status == Paid
            && r.sub.Some? && r.sub.value.status == Active && r.sub.value.planId == planId && r.sub.value.cycle == cycle
            && r.sub.value.currentPeriodStart == s.currentPeriodEnd
            && r.sub.value.currentPeriodEnd == AddCycle(s.currentPeriodEnd, cycle)
  {
    TermStep(a, e);
    PriceIs(e.plans[planId], cycle, price);
    hide AddCycle, Inv, Step, Ops.Dunning, Ops.RenewalStart, Ops.EndOfTerm, PriceFor, Costs, RenewalRow;
    RenewedEnd(Released(a), e, planId, cycle, price);
    NoDunning(Ops.EndOfTerm(Released(a), EnvOf(e)), EnvOf(e));
  }

  /**
   * Without a charge that goes through, the new row is not paid and the shop is not active, unless the retry of an
   * older invoice succeeds in the same run.
   */
  lemma UnchargedTermIsOwed(a: Account, e: Event, planId: PlanId, cycle: Cycle, price: int)
    requires Inv(a, e.now) && TermOver(a, e) && a.sub.value.autoRenew && !a.sub.value.cancelAtPeriodEnd
    requires Due(a.sub.value, e.plans, planId, cycle) && planId in e.plans && price > 0
    requires Costs(e.plans[planId], cycle, price) && !Charged(e)
    ensures var s, r := a.sub.value, Step(a, e); var n := |a.invoices|;
            && |r.invoices| == n + 1
            && RenewalRow(r.invoices[n], cycle, s.currentPeriodEnd, price) && r.invoices[n].status in {Open, Failed}
            && r.sub.Some? && r.sub.value.planId == planId
            && (r.sub.value.status == Active <==> OlderRetryPays(a, e))
            && (r.sub.value.status != Active ==>
                  && r.sub.value.cycle == cycle && r.sub.value.currentPeriodEnd == s.currentPeriodEnd
                  && r.sub.value.graceEndsAt == Some(e.now + e.settings.graceDays * MS_PER_DAY)
                  && AfterMissed(s.status, r, e))
  {
    TermStep(a, e);
    MissedTerm(a, e, planId, cycle, price);
    hide AddCycle, Inv, Step, Ops.Dunning, Ops.EndOfTerm, Ops.RenewalStart, AfterMissed, Costs, Due;
    hide OlderRetryPays, Missed, EnvOf, Released;
    var missed := Ops.EndOfTerm(Released(a), EnvOf(e));
    MissedIs(a, missed, e);
    if a.sub.value.status == Trial {
      TrialMissed(a, missed, e);
    } else {
      ActiveMissed(a, missed, e);
    }
  }

  /** The grace days run first; with none of them a term that missed its payment is overdue, or worse, at once. */
  predicate AfterMissed(before: Status, r: Account, e: Event)
    requires r.sub.Some? && r.invoices != []
  {
    var s, row := r.sub.value, r.invoices[|r.invoices| - 1];
    if before == Trial || e.settings.graceDays > 0 then
      && s.status == PaymentPending && row.status == Open
      && (e.action.Automation? && e.action.gateway.Connected? ==>
            && row.attemptCount == 1
            && row.nextRetryAt == if e.settings.retryAttempts > 0
                                  then Some(e.now + e.settings.retryIntervalDays * MS_PER_DAY) else None)
    else
      && row.status == Failed && s.pastDueSince == Some(e.now)
      && s.status == if e.settings.suspendAfterPastDueDays > 0 then PastDue else Suspended
  }

  /** The row of a term just billed is not due for a retry yet. */
  lemma DueFirst(invoices: seq<Invoice>, row: Invoice, e: Event)
    requires e.action.Automation? && !AwaitsRetry(row, e.now)
    ensures var k := OldestDue(invoices + [row], e.now);
            if k < |invoices| then AwaitsRetry(invoices[k], e.now) && forall j :: 0 <= j < k ==> !AwaitsRetry(invoices[j], e.now)
            else k == |invoices| + 1 && forall j :: 0 <= j < |invoices| ==> !AwaitsRetry(invoices[j], e.now)
  {
    var all := invoices + [row];
    var k := OldestDue(all, e.now);
    assert forall j :: 0 <= j < |invoices| ==> all[j] == invoices[j];
    assert all[|invoices|] == row;
  }

  /** The account between the missed charge and the rest of the run. */
  predicate Missed(a: Account, m: Account, e: Event)
    requires e.action.Automation?
  {
    && a.sub.Some? && m.sub.Some? && |m.invoices| == |a.invoices| + 1 && m.invoices[..|a.invoices|] == a.invoices
    && m.sub.value.status == PaymentPending
    && m.sub.value.graceEndsAt == Some(e.now + e.settings.graceDays * MS_PER_DAY)
    && m.sub.value.currentPeriodEnd == a.sub.value.currentPeriodEnd
    && var row := m.invoices[|a.invoices|];
       && row.status == Open && !AwaitsRetry(row, e.now)
       && (e.action.gateway.Connected? ==>
             && row.attemptCount == 1
             && row.nextRetryAt == if e.settings.retryAttempts > 0
                                   then Some(e.now + e.settings.retryIntervalDays * MS_PER_DAY) else None)
  }

  /** The term's end on a willing account, apart from the override and the rest of the run. */
  lemma MissedEnd(b: Account, e: Event, planId: PlanId, cycle: Cycle, price: int)
    requires b.sub.Some? && b.sub.value.planId in e.plans && b.sub.value.autoRenew && !b.sub.value.cancelAtPeriodEnd
    requires Due(b.sub.value, e.plans, planId, cycle) && planId in e.plans && price > 0
    requires PriceFor(e.plans[planId], cycle) == price && e.action.Automation? && !Charged(e)
    ensures var m := Ops.EndOfTerm(b, EnvOf(e));
            && Missed(b, m, e) && m.sub.value.planId == planId && m.sub.value.cycle == cycle
            && RenewalRow(m.invoices[|b.invoices|], cycle, Ops.RenewalStart(b.sub.value), price)
  {
    hide AddCycle, Ops.RenewalStart, PriceFor;
  }

  lemma MissedTerm(a: Account, e: Event, planId: PlanId, cycle: Cycle, price: int)
    requires Inv(a, e.now) && TermOver(a, e) && a.sub.value.autoRenew && !a.sub.value.cancelAtPeriodEnd
    requires Due(a.sub.value, e.plans, planId, cycle) && planId in e.plans && price > 0
    requires Costs(e.plans[planId], cycle, price) && !Charged(e)
    ensures var m := Ops.EndOfTerm(Released(a), EnvOf(e));
            && Missed(a, m, e) && m.sub.value.planId == planId && m.sub.value.cycle == cycle
            && RenewalRow(m.invoices[|a.invoices|], cycle, a.sub.value.currentPeriodEnd, price)
  {
    TermStep(a, e);
    PriceIs(e.plans[planId], cycle, price);
    hide AddCycle, Inv, Step, Ops.Dunning, Ops.RenewalStart, Ops.EndOfTerm, PriceFor, Costs, AwaitsRetry, RenewalRow;
    MissedEnd(Released(a), e, planId, cycle, price);
  }

  lemma PriceIs(plan: Plan, cycle: Cycle, price: int)
    requires Costs(plan, cycle, price)
    ensures PriceFor(plan, cycle) == price
  {
  }

  lemma MissedIs(a: Account, m: Account, e: Event)
    requires e.action.Automation? && Missed(a, m, e)
    ensures m.sub.Some? && m.sub.value.status == PaymentPending && |m.invoices| == |a.invoices| + 1
    ensures m.sub.value.graceEndsAt == Some(e.now + e.settings.graceDays * MS_PER_DAY)
    ensures m.sub.value.currentPeriodEnd == a.sub.value.currentPeriodEnd && m.invoices[|a.invoices|].status == Open
  {
  }

  lemma TrialMissed(a: Account, m: Account, e: Event)
    requires e.action.Automation? && Missed(a, m, e) && a.sub.value.status == Trial
    ensures !OlderRetryPays(a, e) && AfterMissed(Trial, m, e)
  {
  }

  /** The new row keeps its term and amount. */
  predicate SameRow(i: Invoice, j: Invoice) {
    i.kind == j.kind && i.cycle == j.cycle && i.amount == j.amount && i.periodStart == j.periodStart
    && i.periodEnd == j.periodEnd
  }

  /** The rest of the run on an active shop that missed its renewal. */
  lemma ActiveMissed(a: Account, m: Account, e: Event)
    requires e.action.Automation? && Missed(a, m, e) && a.sub.value.status == Active
    ensures var r := Ops.Dunning(m, EnvOf(e)); var n := |a.invoices|;
            && r.sub.Some? && r.sub.value.planId == m.sub.value.planId
            && |r.invoices| == n + 1 && SameRow(r.invoices[n], m.invoices[n]) && r.invoices[n].status in {Open, Failed}
            && (r.sub.value.status == Active <==> OlderRetryPays(a, e))
            && (r.sub.value.status != Active ==>
                  && r.sub.value.cycle == m.sub.value.cycle
                  && r.sub.value.currentPeriodEnd == m.sub.value.currentPeriodEnd
                  && r.sub.value.graceEndsAt == m.sub.value.graceEndsAt && AfterMissed(Active, r, e))
  {
    var n, env := |a.invoices|, EnvOf(e);
    var row := m.invoices[n];
    assert m.invoices == a.invoices + [row];
    DueFirst(a.invoices, row, e);
    var retried := Ops.RetryPayment(m, env);
    RetryOfMissed(a, m, e);
    hide Ops.RetryPayment, OlderRetryPays, AwaitsRetry, Missed;
    if retried.sub.value.status == PaymentPending && e.settings.graceDays == 0 {
      assert Ops.GraceCheck(retried, e.now).invoices[n] == FailIfOpen(row);
    }
  }

  /** The retry charges an older invoice, if any; the new row is not due. */
  lemma RetryOfMissed(a: Account, m: Account, e: Event)
    requires e.action.Automation? && Missed(a, m, e) && a.sub.value.status == Active
    ensures var r := Ops.RetryPayment(m, EnvOf(e)); var n := |a.invoices|;
            && |r.invoices| == n + 1 && r.invoices[n] == m.invoices[n] && r.sub.Some?
            && (if OlderRetryPays(a, e) then r.sub.value.status == Active && r.sub.value.planId == m.sub.value.planId
                else r.sub == m.sub)
  {
    hide AddCycle;
    var n, row := |a.invoices|, m.invoices[|a.invoices|];
    assert m.invoices == a.invoices + [row];
    DueFirst(a.invoices, row, e);
    var k := OldestDue(m.invoices, e.now);
    if k < n {
      assert m.invoices[k] == a.invoices[k];
      assert RetryableFirst(a.invoices, k, e.now, e.settings.retryAttempts)
        <==> a.invoices[k].attemptCount <= e.settings.retryAttempts;
      assert forall j :: RetryableFirst(a.invoices, j, e.now, e.settings.retryAttempts) ==> j == k;
    } else {
      assert forall j :: !RetryableFirst(a.invoices, j, e.now, e.settings.retryAttempts);
    }
  }

  // ------------------------------------------------- renewals were wanted

  /** A state and step in which the shop may be billed for another term. */
  predicate WantsRenewal(a: Account, e: Event) {
    && e.action.Automation? && a.sub.Some? && a.sub.value.status in {Trial, Active}
    && a.sub.value.autoRenew && !a.sub.value.cancelAtPeriodEnd && a.sub.value.currentPeriodEnd <= e.now
  }

  /** Rows are added one at a time, and a renewal only as the term of a shop that wants it ends. */
  ghost predicate AddsOne(a: Account, e: Event, r: Account) {
    && |a.invoices| <= |r.invoices| <= |a.invoices| + 1
    && (|r.invoices| > |a.invoices| && r.invoices[|a.invoices|].kind == Renewal ==> WantsRenewal(a, e))
  }

  lemma OtherAddsOne(a: Account, e: Event)
    requires Known(a, e.plans) && !e.action.Automation?
    ensures AddsOne(a, e, Step(a, e))
  {
    hide AddCycle, Ops.UpgradeAmount, Round2, PriceFor, Ops.AppliesNow, Ops.IsUpgrade, Ops.PaidPeriod;
  }

  lemma DunningAddsNone(a: Account, env: Ops.Env)
    requires a.sub.Some?
    ensures |Ops.Dunning(a, env).invoices| == |a.invoices|
    ensures forall k :: 0 <= k < |a.invoices| ==> Ops.Dunning(a, env).invoices[k].kind == a.invoices[k].kind
  {
    hide AddCycle;
  }

  lemma EndOfTermAddsOne(a: Account, env: Ops.Env)
    requires a.sub.Some? && Known(a, env.plans)
    ensures var r := Ops.EndOfTerm(a, env);
            && |a.invoices| <= |r.invoices| <= |a.invoices| + 1
            && (|r.invoices| > |a.invoices| ==> a.sub.value.autoRenew && !a.sub.value.cancelAtPeriodEnd)
  {
    hide AddCycle, PriceFor;
  }

  lemma AutomationAddsOne(a: Account, e: Event)
    requires Inv(a, e.now) && Known(a, e.plans) && e.action.Automation?
    ensures AddsOne(a, e, Step(a, e))
  {
    hide InvoicesOk, Ops.EndOfTerm, Ops.Dunning;
    if a.sub.Some? && a.sub.value.status in {Trial, Active, PaymentPending, PastDue} {
      var b := Released(a);
      EndOfTermAddsOne(b, EnvOf(e));
      DunningAddsNone(b, EnvOf(e));
      DunningAddsNone(Ops.EndOfTerm(b, EnvOf(e)), EnvOf(e));
    }
  }

  lemma StepAddsOne(a: Account, e: Event)
    requires Inv(a, e.now)
    ensures AddsOne(a, e, Step(a, e))
  {
    hide Inv;
    if Known(a, e.plans) {
      hide Step;
      if e.action.Automation? {
        AutomationAddsOne(a, e);
      } else {
        OtherAddsOne(a, e);
      }
    }
  }

  /** The account before the n-th event of a run. */
  function Before(a: Account, trace: seq<Event>, n: nat): Account
    requires n < |trace|
  {
    Run(a, trace[..n])
  }

  /**
   * Over every run, each renewal invoice was added by a billing run that found the term over and the shop willing:
   * auto-renew on and no cancellation at the end of the period.
   */
  lemma {:induction false} RenewalsWereWanted(a: Account, clock: int, trace: seq<Event>, k: nat) returns (n: nat)
    requires Inv(a, clock) && Timely(clock, trace)
    requires |a.invoices| <= k < |Run(a, trace).invoices| && Run(a, trace).invoices[k].kind == Renewal
    ensures n < |trace| && |Before(a, trace, n).invoices| == k && WantsRenewal(Before(a, trace, n), trace[n])
    decreases |trace|
  {
    hide Inv, Step, WantsRenewal;
    var e := trace[0];
    var next := Step(a, e);
    InvLater(a, clock, e.now);
    StepKeeps(a, e);
    StepAddsOne(a, e);
    if k < |next.invoices| {
      n := 0;
      RowsKeepKind(next, trace[1..], k);
      assert trace[..0] == [];
    } else {
      var m := RenewalsWereWanted(next, e.now, trace[1..], k);
      n := m + 1;
      assert trace[..n][1..] == trace[1..][..m];
    }
  }

  lemma RowsKeepKind(a: Account, trace: seq<Event>, k: nat)
    requires k < |a.invoices|
    ensures k < |Run(a, trace).invoices| && Run(a, trace).invoices[k].kind == a.invoices[k].kind
  {
    RunEvolves(a, trace);
    assert Evolves(a.invoices[k], Run(a, trace).invoices[k]);
  }

  // ------------------------------------------------------------ a payment

  /** The first unpaid invoice. */
  predicate Oldest(invoices: seq<Invoice>, k: nat) {
    && k < |invoices| && invoices[k].status in {Open, Failed}
    && forall j :: 0 <= j < k ==> invoices[j].status !in {Open, Failed}
  }

  lemma OldestIs(invoices: seq<Invoice>, k: nat)
    requires Oldest(invoices, k)
    ensures OldestUnpaid(invoices) == k
  {
  }

  /** The invoice that a payment is for: the chosen one, or the oldest unpaid one. */
  predicate Pays(a: Account, e: Event, k: nat) {
    && e.action.MarkPaid? && k < |a.invoices| && a.invoices[k].status in {Open, Failed}
    && match e.action.chosen
       case Some(c) => c == k
       case None => Oldest(a.invoices, k)
  }

  /**
   * A paid term makes any shop active that was not cancelled, unless an administrator holds it suspended; the
   * period is the invoice's own, or a whole cycle from now if that is over.
   */
  lemma PaymentRestores(a: Account, e: Event, k: nat)
    requires Inv(a, e.now) && Known(a, e.plans) && Pays(a, e, k)
    requires a.sub.Some? && a.sub.value.status != Cancelled && a.invoices[k].kind != Upgrade
    ensures var s, i, r := a.sub.value, a.invoices[k], Step(a, e);
            && r.sub.Some?
            && (r.sub.value.status == Suspended <==> s.status == Suspended && s.automationPaused)
            && (r.sub.value.status != Suspended ==> r.sub.value.status == Active)
            && e.now < r.sub.value.currentPeriodEnd
            && (e.now < i.periodEnd ==>
                  r.sub.value.currentPeriodStart == i.periodStart && r.sub.value.currentPeriodEnd == i.periodEnd)
            && (i.periodEnd <= e.now ==>
                  r.sub.value.currentPeriodStart == e.now && r.sub.value.currentPeriodEnd == AddCycle(e.now, i.cycle))
            && r.sub.value.graceEndsAt.None? && r.sub.value.pastDueSince.None? && r.sub.value.trialEndsAt.None?
            && r.sub.value.planId == s.planId && r.sub.value.automationPaused == s.automationPaused
            && PaidOnly(a.invoices, r.invoices, k)
  {
    PaymentStep(a, e, k);
    hide AddCycle, Inv, Step, Pays;
    AddCycleIsLater(e.now, a.invoices[k].cycle);
  }

  lemma PaymentStep(a: Account, e: Event, k: nat)
    requires Known(a, e.plans) && Pays(a, e, k)
    requires a.sub.Some? && a.sub.value.status != Cancelled && a.invoices[k].kind != Upgrade
    ensures var s, i, r := a.sub.value, a.invoices[k], Step(a, e);
            && PaidOnly(a.invoices, r.invoices, k)
            && r.sub == Some(Ops.PaidPeriod(s, i, e.now).(
                 trialEndsAt := None, graceEndsAt := None, pastDueSince := None,
                 status := if s.status == Suspended && s.automationPaused then Suspended else Active))
  {
    hide AddCycle, FirstIndex, Ops.PaidPeriod;
    if e.action.chosen.None? {
      OldestIs(a.invoices, k);
    }
    assert Ops.PaidPeriod(a.sub.value, SettleInvoice(a.invoices[k]), e.now)
        == Ops.PaidPeriod(a.sub.value, a.invoices[k], e.now) by {
      SamePaidPeriod(a.sub.value, a.invoices[k], e.now);
    }
  }

  lemma SamePaidPeriod(s: Subscription, i: Invoice, now: int)
    ensures Ops.PaidPeriod(s, SettleInvoice(i), now) == Ops.PaidPeriod(s, i, now)
  {
  }

  /** One invoice is paid and no longer retried; nothing else changes. */
  predicate PaidOnly(before: seq<Invoice>, after: seq<Invoice>, k: nat) {
    && k < |before| == |after|
    && after[k] == before[k].(status := Paid, nextRetryAt := None)
    && forall j :: 0 <= j < |before| && j != k ==> after[j] == before[j]
  }

  /** Paying an upgrade, or for a cancelled shop, changes that invoice alone. */
  lemma PaymentSettles(a: Account, e: Event, k: nat)
    requires Known(a, e.plans) && Pays(a, e, k)
    requires a.sub.Some? && (a.sub.value.status == Cancelled || a.invoices[k].kind == Upgrade)
    ensures Step(a, e).sub == a.sub && PaidOnly(a.invoices, Step(a, e).invoices, k)
  {
    hide FirstIndex;
    if e.action.chosen.None? {
      OldestIs(a.invoices, k);
    }
  }

  /** Without an unpaid invoice to pay nothing changes. */
  lemma PaymentRefused(a: Account, e: Event)
    requires Known(a, e.plans) && e.action.MarkPaid? && forall k: nat :: !Pays(a, e, k)
    ensures Step(a, e) == a
  {
    if e.action.chosen.Some? {
      var hint := Pays(a, e, e.action.chosen.value);
    } else {
      var hint := Pays(a, e, OldestUnpaid(a.invoices));
    }
  }
}
