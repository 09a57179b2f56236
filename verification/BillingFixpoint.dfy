/** Billing runs repeated at one instant settle, whatever the payment provider answers. */
module BillingFixpoint {
  import opened Calendar
  import opened BillingModel
  import opened Options
  import Ops = BillingOps
  import opened BillingRuns

  // ------------------------------------------------------------ measure

  /** An override that this instant ends. */
  function HeldRank(a: Account, now: int): nat {
    if a.sub.Some? && a.sub.value.automationPaused && Ops.OverrideOver(a.sub.value, now) then 1 else 0
  }

  /** How far the status still is from one that a run leaves alone. */
  function StatusRank(a: Account, now: int): nat {
    if a.sub.None? then 0
    else match a.sub.value.status
         case Trial => if Ops.RenewalStart(a.sub.value) <= now then 4 else 0
         case Active => if a.sub.value.currentPeriodEnd <= now then 3 else 0
         case PaymentPending => 2
         case PastDue => 1
         case _ => 0
  }

  /** Time the current period has been over. */
  function Lapse(a: Account, now: int): nat {
    if a.sub.Some? && a.sub.value.currentPeriodEnd < now then now - a.sub.value.currentPeriodEnd else 0
  }

  function CountDue(invoices: seq<Invoice>, now: int): nat {
    if invoices == [] then 0 else (if RetryDue(invoices[0], now) then 1 else 0) + CountDue(invoices[1..], now)
  }

  function DueRank(a: Account, now: int): nat { CountDue(a.invoices, now) }

  predicate Below(a: Account, b: Account, now: int) {
    || HeldRank(a, now) < HeldRank(b, now)
    || (HeldRank(a, now) == HeldRank(b, now) &&
        (|| StatusRank(a, now) < StatusRank(b, now)
         || (StatusRank(a, now) == StatusRank(b, now) &&
             (|| Lapse(a, now) < Lapse(b, now)
              || (Lapse(a, now) == Lapse(b, now) && DueRank(a, now) < DueRank(b, now))))))
  }

  // ----------------------------------------------------- every run lowers it

  lemma {:induction false} CountDueUpdate(invoices: seq<Invoice>, k: nat, row: Invoice, now: int)
    requires k < |invoices| && RetryDue(invoices[k], now) && !RetryDue(row, now)
    ensures CountDue(invoices[k := row], now) + 1 == CountDue(invoices, now)
  {
    if k == 0 {
      assert invoices[k := row][1..] == invoices[1..];
    } else {
      assert invoices[k := row][1..] == invoices[1..][k - 1 := row];
      CountDueUpdate(invoices[1..], k - 1, row, now);
    }
  }

  lemma PaidPeriodIsCurrent(sub: Subscription, paid: Invoice, now: int)
    ensures Ops.PaidPeriod(sub, paid, now).currentPeriodEnd > now
  {
    hide AddCycle;
    AddCycleIsLater(now, paid.cycle);
  }

  /** A retry leaves the account alone, makes it active with a future end, or uses up one due invoice. */
  lemma RetryOutcome(a: Account, env: Ops.Env)
    requires Ops.HasStatus(a, PaymentPending)
    ensures var r := Ops.RetryPayment(a, env);
            && r.sub.value.automationPaused == a.sub.value.automationPaused
            && r.sub.value.pausedUntil == a.sub.value.pausedUntil
            && (|| r == a
                || (Ops.HasStatus(r, Active) && r.sub.value.currentPeriodEnd > env.now)
                || (r.sub == a.sub && DueRank(r, env.now) < DueRank(a, env.now)))
  {
    hide AddCycle, Ops.PaidPeriod, FirstIndex;
    var k := OldestDue(a.invoices, env.now);
    if k < |a.invoices| {
      PaidPeriodIsCurrent(a.sub.value, a.invoices[k], env.now);
      PaidPeriodFrame(a.sub.value, a.invoices[k], env.now);
      CountDueUpdate(a.invoices, k, Ops.RetryFailed(a.invoices[k], env.settings, env.now), env.now);
    }
  }

  lemma DunningLowers(a: Account, env: Ops.Env)
    requires a.sub.Some? && a.sub.value.status !in {Trial, Active}
    ensures var r := Ops.Dunning(a, env);
            && r.sub.Some? && HeldRank(r, env.now) == HeldRank(a, env.now)
            && (r == a || Below(r, a, env.now))
            && StatusRank(r, env.now) <= StatusRank(a, env.now)
  {
    hide Ops.RetryPayment, AddCycle;
    if Ops.HasStatus(a, PaymentPending) {
      RetryOutcome(a, env);
    }
  }

  /** Ending a term renews to a later period or leaves the active states. */
  lemma EndOfTermOutcome(a: Account, env: Ops.Env)
    requires a.sub.Some? && Known(a, env.plans) && a.sub.value.status in {Trial, Active}
    ensures var r := Ops.EndOfTerm(a, env);
            && r.sub.Some?
            && r.sub.value.automationPaused == a.sub.value.automationPaused
            && r.sub.value.pausedUntil == a.sub.value.pausedUntil
            && (|| (r.sub.value.status == Active && r.sub.value.currentPeriodEnd > Ops.RenewalStart(a.sub.value))
                || r.sub.value.status in {Cancelled, Expired, PaymentPending})
  {
    hide AddCycle, PriceFor;
    var planned := Ops.WithPendingChange(a.sub.value, env.plans);
    AddCycleIsLater(Ops.RenewalStart(a.sub.value), planned.cycle);
  }

  lemma LifecycleLowers(a: Account, env: Ops.Env)
    requires a.sub.Some? && Known(a, env.plans)
    ensures var r := Ops.Lifecycle(a, env);
            && HeldRank(r, env.now) == HeldRank(a, env.now)
            && (r == a || Below(r, a, env.now))
  {
    hide Ops.EndOfTerm, Ops.Dunning, AddCycle;
    var sub := a.sub.value;
    if sub.status in {Trial, Active} {
      EndOfTermOutcome(a, env);
      var r := Ops.EndOfTerm(a, env);
      if r.sub.value.status != Active {
        DunningLowers(r, env);
      } else {
        DunningSkipsActive(r, env);
      }
    } else {
      DunningLowers(a, env);
    }
  }

  lemma DunningSkipsActive(a: Account, env: Ops.Env)
    requires Ops.HasStatus(a, Active)
    ensures Ops.Dunning(a, env) == a
  {
  }

  /** A run changes nothing or lowers (held, status, lapse, due invoices) lexicographically. */
  lemma AutomationLowers(a: Account, env: Ops.Env)
    requires Known(a, env.plans)
    ensures var r := Ops.Automation(a, env); r == a || Below(r, a, env.now)
  {
    hide Ops.Lifecycle, CountDue;
    if a.sub.Some? {
      LifecycleLowers(a, env);
      LifecycleLowers(Ops.Unpaused(a), env);
    }
  }

  // --------------------------------------------------------- settling

  /** The account after `n` runs at one instant; `runs(k)` carries the answers of the k-th run. */
  ghost function After(a: Account, runs: nat -> Event, n: nat): Account {
    if n == 0 then a else Step(After(a, runs, n - 1), runs(n - 1))
  }

  ghost predicate RunsAt(runs: nat -> Event, now: int) {
    forall n: nat :: runs(n).now == now && runs(n).action.Automation?
  }

  ghost predicate SettledFrom(a: Account, runs: nat -> Event, n: nat) {
    forall m: nat :: n <= m ==> After(a, runs, m) == After(a, runs, n)
  }

  lemma StepLowers(a: Account, e: Event)
    requires e.action.Automation?
    ensures Step(a, e) == a || Below(Step(a, e), a, e.now)
  {
    hide Below;
    if Known(a, e.plans) {
      AutomationLowers(a, Ops.Env(e.plans, e.settings, e.now, e.action.gateway));
    }
  }

  /** From the n-th run on nothing changes, or the account moves strictly below at some later run. */
  lemma {:induction false} StaysOrMoves(a: Account, runs: nat -> Event, now: int, n: nat, m: nat)
    requires RunsAt(runs, now) && n <= m
    ensures After(a, runs, m) == After(a, runs, n)
         || exists k: nat :: n < k <= m && Below(After(a, runs, k), After(a, runs, n), now)
    decreases m - n
  {
    hide Below, Step;
    if n < m {
      StaysOrMoves(a, runs, now, n, m - 1);
      if After(a, runs, m - 1) == After(a, runs, n) {
        assert runs(m - 1).now == now;
        StepLowers(After(a, runs, m - 1), runs(m - 1));
      }
    }
  }

  /** Repeated runs at a fixed instant reach a state that no later run of the sequence changes. */
  lemma {:induction false} RunsSettle(a: Account, runs: nat -> Event, now: int, n: nat) returns (settled: nat)
    requires RunsAt(runs, now)
    ensures n <= settled && SettledFrom(a, runs, settled)
    decreases HeldRank(After(a, runs, n), now), StatusRank(After(a, runs, n), now),
              Lapse(After(a, runs, n), now), DueRank(After(a, runs, n), now)
  {
    hide Step;
    if SettledFrom(a, runs, n) {
      settled := n;
    } else {
      var m: nat :| n <= m && After(a, runs, m) != After(a, runs, n);
      StaysOrMoves(a, runs, now, n, m);
      var k: nat :| n < k <= m && Below(After(a, runs, k), After(a, runs, n), now);
      settled := RunsSettle(a, runs, now, k);
    }
  }

  /** The invoice the next retry would charge, if any attempt is left for it. */
  predicate RetryPossible(a: Account, settings: Settings, now: int) {
    var k := OldestDue(a.invoices, now);
    k < |a.invoices| && a.invoices[k].attemptCount <= settings.retryAttempts
  }

  /** Nothing a billing run could do now, under any answer of the payment provider. */
  predicate Quiet(a: Account, settings: Settings, now: int) {
    || !Ops.Selected(a)
    || (a.sub.value.automationPaused && !Ops.OverrideOver(a.sub.value, now))
    || (&& !a.sub.value.automationPaused
        && match a.sub.value.status
           case Trial => now < Ops.RenewalStart(a.sub.value)
           case Active => now < a.sub.value.currentPeriodEnd
           case PaymentPending =>
             now < a.sub.value.graceEndsAt.GetOr(now) && !RetryPossible(a, settings, now)
           case _ => now < AddDays(a.sub.value.pastDueSince.GetOr(now), settings.suspendAfterPastDueDays))
  }

  /** The fixpoints of a run, for all answers, are exactly the quiet accounts. */
  lemma QuietIsFixpoint(a: Account, plans: Catalog, settings: Settings, now: int)
    requires Known(a, plans)
    ensures Quiet(a, settings, now)
       <==> forall gateway :: Ops.Automation(a, Ops.Env(plans, settings, now, gateway)) == a
  {
    if Quiet(a, settings, now) {
      forall gateway ensures Ops.Automation(a, Ops.Env(plans, settings, now, gateway)) == a {
        QuietStays(a, Ops.Env(plans, settings, now, gateway));
      }
    } else {
      LoudMoves(a, Ops.Env(plans, settings, now, Ops.Connected(false, false)));
    }
  }

  lemma QuietStays(a: Account, env: Ops.Env)
    requires Known(a, env.plans) && Quiet(a, env.settings, env.now)
    ensures Ops.Automation(a, env) == a
  {
    hide AddCycle, Ops.EndOfTerm, FirstIndex;
  }

  lemma LoudMoves(a: Account, env: Ops.Env)
    requires Known(a, env.plans) && !Quiet(a, env.settings, env.now) && env.gateway == Ops.Connected(false, false)
    ensures Ops.Automation(a, env) != a
  {
    hide Ops.Lifecycle;
    if a.sub.value.automationPaused {
      LifecycleLowers(Ops.Unpaused(a), env);
    } else {
      LoudLifecycle(a, env);
    }
  }

  lemma LoudLifecycle(a: Account, env: Ops.Env)
    requires Known(a, env.plans) && !Quiet(a, env.settings, env.now) && env.gateway == Ops.Connected(false, false)
    requires !a.sub.value.automationPaused
    ensures Ops.Lifecycle(a, env) != a
  {
    hide Ops.EndOfTerm, Ops.RetryPayment, AddCycle, FirstIndex;
    if a.sub.value.status in {Trial, Active} {
      hide Ops.Dunning;
      EndOfTermOutcome(a, env);
      var r := Ops.EndOfTerm(a, env);
      if r.sub.value.status != Active {
        DunningLowers(r, env);
      } else {
        DunningSkipsActive(r, env);
      }
    } else if a.sub.value.status == PaymentPending {
      DeclinedRetry(a, env);
    }
  }

  lemma DeclinedRetry(a: Account, env: Ops.Env)
    requires Ops.HasStatus(a, PaymentPending) && env.gateway == Ops.Connected(false, false)
    ensures var r := Ops.RetryPayment(a, env);
            && r.sub == a.sub
            && (RetryPossible(a, env.settings, env.now) ==> r.invoices != a.invoices)
  {
    hide FirstIndex;
    var k := OldestDue(a.invoices, env.now);
    if RetryPossible(a, env.settings, env.now) {
      var row := Ops.RetryFailed(a.invoices[k], env.settings, env.now);
      assert a.invoices[k := row][k].attemptCount != a.invoices[k].attemptCount;
    }
  }
}
