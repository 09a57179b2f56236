/** What becomes of an invoice, and how payments bring a shop back. */
module BillingPayments {
  import opened Calendar
  import opened BillingModel
  import opened Options
  import Ops = BillingOps
  import opened BillingRuns

  // ----------------------------------------------------- invoice history

  /** Where an invoice can get to: nothing paid or void is ever owed again. */
  predicate CanBecome(s: InvoiceStatus, t: InvoiceStatus) {
    match s
    case Open => true
    case Failed => t != Open
    case Paid => t in {Paid, PartiallyRefunded, Refunded}
    case PartiallyRefunded => t in {PartiallyRefunded, Refunded}
    case Void | Refunded => t == s
  }

  /** A later version of the same row: same term and amount, refunds only added. */
  predicate Evolves(i: Invoice, j: Invoice) {
    KeepsTerm(i, j) && i.amount == j.amount && i.refunds <= j.refunds && CanBecome(i.status, j.status)
  }

  ghost predicate RowsEvolve(before: seq<Invoice>, after: seq<Invoice>) {
    |before| <= |after| && forall k :: 0 <= k < |before| ==> Evolves(before[k], after[k])
  }

  lemma RowsEvolveTrans(x: seq<Invoice>, y: seq<Invoice>, z: seq<Invoice>)
    requires RowsEvolve(x, y) && RowsEvolve(y, z)
    ensures RowsEvolve(x, z)
  {
    forall k | 0 <= k < |x| ensures Evolves(x[k], z[k]) {
      assert Evolves(x[k], y[k]) && Evolves(y[k], z[k]);
    }
  }

  lemma EndOfTermRows(a: Account, env: Ops.Env)
    requires a.sub.Some? && Known(a, env.plans)
    ensures RowsEvolve(a.invoices, Ops.EndOfTerm(a, env).invoices)
  {
    hide AddCycle, PriceFor;
  }

  lemma DunningRows(a: Account, env: Ops.Env)
    requires a.sub.Some?
    ensures RowsEvolve(a.invoices, Ops.Dunning(a, env).invoices)
  {
    hide AddCycle;
    var retried := if Ops.HasStatus(a, PaymentPending) then Ops.RetryPayment(a, env) else a;
    assert RowsEvolve(a.invoices, retried.invoices);
    assert RowsEvolve(retried.invoices, Ops.GraceCheck(retried, env.now).invoices);
    RowsEvolveTrans(a.invoices, retried.invoices, Ops.GraceCheck(retried, env.now).invoices);
  }

  lemma LifecycleRows(a: Account, env: Ops.Env)
    requires a.sub.Some? && Known(a, env.plans)
    ensures RowsEvolve(a.invoices, Ops.Lifecycle(a, env).invoices)
  {
    hide Ops.EndOfTerm, Ops.Dunning;
    var ended := Ops.EndOfTerm(a, env);
    EndOfTermRows(a, env);
    DunningRows(ended, env);
    DunningRows(a, env);
    RowsEvolveTrans(a.invoices, ended.invoices, Ops.Dunning(ended, env).invoices);
  }

  lemma PaymentRows(a: Account, chosen: Option<nat>, now: int)
    ensures var r := Ops.MarkPaid(a, chosen, now); r.Ok? ==> RowsEvolve(a.invoices, r.value.invoices)
  {
    hide AddCycle, FirstIndex;
  }

  lemma RefundRows(a: Account, k: nat, value: int)
    ensures var r := Ops.Refund(a, k, value); r.Ok? ==> RowsEvolve(a.invoices, r.value.invoices)
  {
  }

  /** Every other action keeps the old rows, except an immediate cancel, which voids what is unpaid. */
  lemma OtherRows(a: Account, e: Event)
    requires Known(a, e.plans) && !e.action.MarkPaid? && !e.action.Refund? && !e.action.Automation?
    ensures var rows := Step(a, e).invoices;
            a.invoices <= rows || rows == MapRows(a.invoices, VoidIfUnpaid)
  {
    hide AddCycle, Ops.UpgradeAmount, Round2, PriceFor, MapRows, Ops.AppliesNow, Ops.IsUpgrade;
  }

  /** No action rewrites an invoice's term or amount, or takes back its payment. */
  lemma StepEvolves(a: Account, e: Event)
    ensures RowsEvolve(a.invoices, Step(a, e).invoices)
  {
    if !Known(a, e.plans) {
      return;
    }
    match e.action
    case MarkPaid(chosen) => PaymentRows(a, chosen, e.now);
    case Refund(k, value) => RefundRows(a, k, value);
    case Automation(gateway) =>
      hide Ops.Lifecycle;
      if a.sub.Some? {
        LifecycleRows(a, Ops.Env(e.plans, e.settings, e.now, gateway));
        LifecycleRows(Ops.Unpaused(a), Ops.Env(e.plans, e.settings, e.now, gateway));
      }
    case _ =>
      hide Step;
      OtherRows(a, e);
  }

  lemma {:induction false} RunEvolves(a: Account, trace: seq<Event>)
    ensures RowsEvolve(a.invoices, Run(a, trace).invoices)
    decreases |trace|
  {
    hide Step;
    if trace != [] {
      var next := Step(a, trace[0]);
      StepEvolves(a, trace[0]);
      RunEvolves(next, trace[1..]);
      RowsEvolveTrans(a.invoices, next.invoices, Run(next, trace[1..]).invoices);
    }
  }

  /** An invoice is collected at most once over any run. */
  lemma PaidOnce(a: Account, trace: seq<Event>, k: nat)
    requires k < |a.invoices| && a.invoices[k].status == Paid
    ensures var rows := Run(a, trace).invoices;
            && k < |rows| && !Unpaid(rows[k])
            && Ops.PayInvoice(rows, k).Err?
  {
    RunEvolves(a, trace);
    assert Evolves(a.invoices[k], Run(a, trace).invoices[k]);
  }

  /** Over any run of a new shop each invoice's refunds add up to its stored total and never exceed its amount. */
  lemma RefundsAreConserved(clock: int, trace: seq<Event>, k: nat)
    requires Timely(clock, trace) && k < |Run(NewAccount, trace).invoices|
    ensures var i := Run(NewAccount, trace).invoices[k];
            && i.refundedAmount == Sum(i.refunds) <= i.amount
            && (i.status == Refunded <==> i.refundedAmount == i.amount)
            && (i.status == PartiallyRefunded <==> 0 < i.refundedAmount < i.amount)
  {
    RunKeeps(NewAccount, clock, trace);
    assert InvoiceOk(Run(NewAccount, trace).invoices[k], LastClock(clock, trace));
  }

  // --------------------------------------------------------- paying down

  function CountUnpaid(invoices: seq<Invoice>): nat {
    if invoices == [] then 0 else (if Unpaid(invoices[0]) then 1 else 0) + CountUnpaid(invoices[1..])
  }

  lemma {:induction false} CountUnpaidSettled(invoices: seq<Invoice>, k: nat)
    requires k < |invoices| && Unpaid(invoices[k])
    ensures CountUnpaid(invoices[k := SettleInvoice(invoices[k])]) + 1 == CountUnpaid(invoices)
  {
    var row := SettleInvoice(invoices[k]);
    if k == 0 {
      assert invoices[k := row][1..] == invoices[1..];
    } else {
      assert invoices[k := row][1..] == invoices[1..][k - 1 := row];
      CountUnpaidSettled(invoices[1..], k - 1);
    }
  }

  ghost predicate PaysOldest(trace: seq<Event>, planId: PlanId) {
    forall k :: 0 <= k < |trace| ==> trace[k].action == Action.MarkPaid(None) && planId in trace[k].plans
  }

  /** A shop that owes a term and that nothing but the payment keeps from its service. */
  ghost predicate Restorable(a: Account) {
    && a.sub.Some? && a.sub.value.status != Cancelled
    && !(a.sub.value.status == Suspended && a.sub.value.automationPaused)
    && (a.sub.value.status in {PaymentPending, PastDue} || HasUnpaidTerm(a.invoices))
  }

  /** Paying the oldest invoice of such a shop reactivates it or settles an upgrade. */
  lemma PayOldestOutcome(a: Account, e: Event)
    requires Inv(a, e.now) && e.action == Action.MarkPaid(None)
    requires Restorable(a) && a.sub.value.planId in e.plans
    ensures var r := Step(a, e);
            && r.sub.Some? && r.sub.value.planId == a.sub.value.planId
            && CountUnpaid(r.invoices) + 1 == CountUnpaid(a.invoices)
            && ((r.sub == a.sub && Restorable(r)) || (r.sub.value.status == Active && r.sub.value.currentPeriodEnd > e.now))
  {
    hide AddCycle, Ops.PaidPeriod, MoneyOk, RenewalsAdvance;
    var k := OldestUnpaid(a.invoices);
    var owed :| 0 <= owed < |a.invoices| && OwesTerm(a.invoices[owed]);
    assert k <= owed;
    CountUnpaidSettled(a.invoices, k);
    if a.invoices[k].kind == Upgrade {
      OtherTermStillOwed(a.invoices, k, SettleInvoice(a.invoices[k]));
    }
    hide HasUnpaidTerm;
    var rows := a.invoices[k := SettleInvoice(a.invoices[k])];
    SettledRowsOk(a, k, e.now);
    PaidPeriodOk(a.sub.value, rows[k], rows, e.now);
    PaidPeriodFrame(a.sub.value, rows[k], e.now);
  }

  lemma SettledRowsOk(a: Account, k: nat, now: int)
    requires Inv(a, now) && k < |a.invoices| && Unpaid(a.invoices[k])
    ensures InvoicesOk(a.invoices[k := SettleInvoice(a.invoices[k])], now)
  {
    EditedRows(a.invoices, a.invoices[k := SettleInvoice(a.invoices[k])], now);
  }

  /**
   * Paying down restores service to every shop that owes a term and is neither cancelled nor held suspended: as many
   * payments as there are unpaid invoices always suffice.
   */
  lemma {:induction false} PayingDownRestores(a: Account, clock: int, trace: seq<Event>) returns (n: nat)
    requires Inv(a, clock) && Timely(clock, trace)
    requires Restorable(a) && PaysOldest(trace, a.sub.value.planId)
    requires CountUnpaid(a.invoices) <= |trace|
    ensures 1 <= n <= CountUnpaid(a.invoices)
    ensures var r := Run(a, trace[..n]);
            Ops.HasStatus(r, Active) && r.sub.value.currentPeriodEnd > trace[n - 1].now
    decreases |trace|
  {
    hide Inv, Step, Restorable;
    SomethingIsOwed(a, clock);
    var e := trace[0];
    InvLater(a, clock, e.now);
    PayOldestOutcome(a, e);
    StepKeeps(a, e);
    var next := Step(a, e);
    if !(next.sub.value.status == Active && next.sub.value.currentPeriodEnd > e.now) {
      SomethingIsOwed(next, e.now);
      var m := PayingDownRestores(next, e.now, trace[1..]);
      n := m + 1;
      assert trace[..n][1..] == trace[1..][..m];
    } else {
      n := 1;
      assert Run(a, trace[..1]) == Run(next, trace[..1][1..]) == next;
    }
  }

  lemma SomethingIsOwed(a: Account, now: int)
    requires Inv(a, now) && Restorable(a)
    ensures CountUnpaid(a.invoices) > 0
  {
    hide InvoicesOk;
    var k :| 0 <= k < |a.invoices| && OwesTerm(a.invoices[k]);
    CountUnpaidSettled(a.invoices, k);
  }
}
