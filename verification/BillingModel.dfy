/** The rows of one shop's billing: its subscription and its invoices, oldest first. */
module BillingModel {
  import opened Calendar
  import opened Options

  datatype Result<+T> = Ok(value: T) | Err(error: BillingError)

  datatype BillingError =
    | NoSubscription | AlreadySubscribed | PlanNotFound | PlanRetired | SamePlan | NotChangeable
    | NoScheduledChange | NotExtendable | NotInGrace | AlreadyCancelled | NotEnding | NoUnpaidInvoice
    | InvoiceNotFound | InvoiceAlreadyPaid | InvoiceNotPayable | NotRefundable | RefundNotPositive
    | RefundTooLarge | NoOverride

  type PlanId = nat

  /** A day count the input validation lets through: at least one day. */
  type Days = d: int | 1 <= d witness 1

  /** Prices are whole paise. */
  datatype Plan = Plan(dailyPrice: nat, monthlyPrice: nat, yearlyPrice: nat, trialDays: nat, isActive: bool)

  type Catalog = map<PlanId, Plan>

  datatype Settings = Settings(
    graceDays: nat,
    suspendAfterPastDueDays: nat,
    retryAttempts: nat,
    retryIntervalDays: Days,
    upgradeProratedNow: bool,
    downgradeNow: bool)

  datatype Status = Trial | Active | PaymentPending | PastDue | Suspended | Expired | Cancelled

  datatype Subscription = Subscription(
    planId: PlanId,
    cycle: Cycle,
    status: Status,
    currentPeriodStart: int,
    currentPeriodEnd: int,
    trialEndsAt: Option<int>,
    graceEndsAt: Option<int>,
    pastDueSince: Option<int>,
    autoRenew: bool,
    cancelAtPeriodEnd: bool,
    cancelledAt: Option<int>,
    pendingPlanId: Option<PlanId>,
    pendingCycle: Option<Cycle>,
    automationPaused: bool,
    pausedUntil: Option<int>)

  datatype InvoiceKind = Initial | Renewal | Upgrade

  datatype InvoiceStatus = Open | Paid | Failed | Void | PartiallyRefunded | Refunded

  /** `refunds` are the refund rows of the invoice, `refundedAmount` the stored total. */
  datatype Invoice = Invoice(
    kind: InvoiceKind,
    cycle: Cycle,
    periodStart: int,
    periodEnd: int,
    amount: int,
    status: InvoiceStatus,
    attemptCount: nat,
    nextRetryAt: Option<int>,
    refundedAmount: int,
    refunds: seq<int>)

  datatype Account = Account(sub: Option<Subscription>, invoices: seq<Invoice>)

  const NewAccount := Account(None, [])

  /** The subscription's plan is in the catalogue: the schema's foreign key. */
  predicate Known(a: Account, plans: Catalog) {
    a.sub.Some? ==> a.sub.value.planId in plans
  }

  // ------------------------------------------------------------- money

  function PriceFor(plan: Plan, cycle: Cycle): nat {
    match cycle
    case Daily => plan.dailyPrice
    case Monthly => plan.monthlyPrice
    case Yearly => plan.yearlyPrice
  }

  /** Twelve times the monthly equivalent (30 daily prices, a twelfth of the yearly one): whole paise. */
  function MonthlyEquivalentTimes12(plan: Plan, cycle: Cycle): nat {
    match cycle
    case Daily => plan.dailyPrice * 360
    case Monthly => plan.monthlyPrice * 12
    case Yearly => plan.yearlyPrice
  }

  /** An exact amount of paise, `num / den`. */
  datatype Amount = Amount(num: int, den: int)

  /** round2: the nearest whole paisa, halves upwards. */
  function Round2(x: Amount): int
    requires x.den > 0
  {
    (2 * x.num + x.den) / (2 * x.den)
  }

  /** More than half a paisa: the least amount that is invoiced. */
  predicate Billable(x: Amount)
    requires x.den > 0
  {
    2 * x.num > x.den
  }

  // ---------------------------------------------------------- invoices

  function NewInvoice(kind: InvoiceKind, cycle: Cycle, periodStart: int, periodEnd: int, amount: int): Invoice {
    Invoice(kind, cycle, periodStart, periodEnd, amount, Open, 0, None, 0, [])
  }

  predicate Unpaid(i: Invoice) { i.status == Open || i.status == Failed }

  predicate RetryDue(i: Invoice, now: int) {
    i.status == Open && i.nextRetryAt.Some? && i.nextRetryAt.value <= now
  }

  /** The oldest row that satisfies `p`, or the number of rows when none does. */
  function FirstIndex<T>(s: seq<T>, p: T -> bool): (k: nat)
    ensures k <= |s|
    ensures forall j :: 0 <= j < k ==> !p(s[j])
    ensures k < |s| ==> p(s[k])
  {
    if s == [] || p(s[0]) then 0 else 1 + FirstIndex(s[1..], p)
  }

  function OldestUnpaid(invoices: seq<Invoice>): nat {
    FirstIndex(invoices, Unpaid)
  }

  function OldestDue(invoices: seq<Invoice>, now: int): nat {
    FirstIndex(invoices, i => RetryDue(i, now))
  }

  function SettleInvoice(i: Invoice): Invoice {
    i.(status := Paid, nextRetryAt := None)
  }

  /** An open invoice whose grace ran out. */
  function FailIfOpen(i: Invoice): Invoice {
    if i.status == Open then i.(status := Failed, nextRetryAt := None) else i
  }

  function VoidIfUnpaid(i: Invoice): Invoice {
    if Unpaid(i) then i.(status := Void, nextRetryAt := None) else i
  }

  /** updateMany: `f` on every row. */
  function MapRows<T>(s: seq<T>, f: T -> T): (r: seq<T>)
    ensures |r| == |s|
    ensures forall j :: 0 <= j < |s| ==> r[j] == f(s[j])
  {
    seq(|s|, j requires 0 <= j < |s| => f(s[j]))
  }
}
