/** How long a shop that does not pay keeps its access. */
module BillingTiming {
  import opened Calendar
  import opened BillingModel
  import opened Options
  import Ops = BillingOps
  import opened BillingRuns

  datatype AccessLevel = FULL | READ_ONLY | SUSPENDED

  function AccessByStatus(status: Status): AccessLevel {
    match status
    case Trial | Active | PaymentPending => FULL
    case PastDue | Expired | Cancelled => READ_ONLY
    case Suspended => SUSPENDED
  }

  /** A shop that never had a subscription keeps full access. */
  function Access(a: Account): AccessLevel {
    if a.sub.None? then FULL else AccessByStatus(a.sub.value.status)
  }

  function Rank(level: AccessLevel): nat {
    match level
    case FULL => 2
    case READ_ONLY => 1
    case SUSPENDED => 0
  }

  /** A billing run under `settings` in which every charge is declined or no provider is connected. */
  predicate UnpaidRun(e: Event, settings: Settings, planId: PlanId) {
    && e.action.Automation?
    && e.settings == settings
    && planId in e.plans
    && (e.action.gateway.Connected? ==> !e.action.gateway.renewalOk && !e.action.gateway.retryOk)
  }

  ghost predicate UnpaidRuns(trace: seq<Event>, settings: Settings, planId: PlanId) {
    forall k :: 0 <= k < |trace| ==> UnpaidRun(trace[k], settings, planId)
  }

  /** Without a successful charge a run never raises the access level. */
  lemma AccessNeverRises(a: Account, e: Event, settings: Settings, planId: PlanId)
    requires UnpaidRun(e, settings, planId)
    ensures Rank(Access(Step(a, e))) <= Rank(Access(a))
  {
    hide AddCycle, FirstIndex, PriceFor, MapRows;
    var env := Ops.Env(e.plans, e.settings, e.now, e.action.gateway);
    if Known(a, e.plans) && a.sub.Some? && a.sub.value.status in {PaymentPending, PastDue} {
      UnpaidDunning(a, env);
      UnpaidDunning(Ops.Unpaused(a), env);
    }
  }

  predicate NoCharge(env: Ops.Env) {
    env.gateway.Connected? ==> !env.gateway.renewalOk && !env.gateway.retryOk
  }

  /** Retry, grace and suspension checks without a payment: only the clock decides. */
  lemma UnpaidDunning(a: Account, env: Ops.Env)
    requires a.sub.Some? && NoCharge(env) && a.sub.value.status !in {Trial, Active}
    ensures var s, r := a.sub.value, Ops.Dunning(a, env);
            var pastDue := s.status == PaymentPending && s.graceEndsAt.GetOr(env.now) <= env.now;
            var since := if pastDue then Some(env.now) else s.pastDueSince;
            var reached := if pastDue then PastDue else s.status;
            var end := AddDays(since.GetOr(env.now), env.settings.suspendAfterPastDueDays);
            r.sub == Some(s.(status := if reached == PastDue && end <= env.now then Suspended else reached,
                             pastDueSince := since))
  {
    hide FirstIndex, MapRows, AddCycle;
  }

  lemma StepIsDunning(a: Account, e: Event, settings: Settings)
    requires a.sub.Some? && UnpaidRun(e, settings, a.sub.value.planId) && !a.sub.value.automationPaused
    requires a.sub.value.status in {PaymentPending, PastDue}
    ensures Step(a, e) == Ops.Dunning(a, Ops.Env(e.plans, e.settings, e.now, e.action.gateway))
  {
    hide Ops.Dunning, Ops.EndOfTerm;
  }

  // ----------------------------------------------------------- timeline

  lemma {:induction false} SuspendedStays(a: Account, trace: seq<Event>, settings: Settings)
    requires Ops.HasStatus(a, Suspended) && UnpaidRuns(trace, settings, a.sub.value.planId)
    ensures Run(a, trace) == a
    decreases |trace|
  {
    hide Ops.Process;
    if trace != [] {
      SuspendedStays(a, trace[1..], settings);
    }
  }

  function SuspendAt(since: int, settings: Settings): int {
    AddDays(since, settings.suspendAfterPastDueDays)
  }

  lemma {:induction false} PastDueTimeline(a: Account, clock: int, trace: seq<Event>, settings: Settings)
    requires Ops.HasStatus(a, PastDue) && a.sub.value.pastDueSince.Some? && !a.sub.value.automationPaused
    requires Timely(clock, trace) && UnpaidRuns(trace, settings, a.sub.value.planId)
    ensures var over := trace != [] && SuspendAt(a.sub.value.pastDueSince.value, settings) <= LastClock(clock, trace);
            Ops.HasStatus(Run(a, trace), if over then Suspended else PastDue)
    decreases |trace|
  {
    hide Ops.Dunning;
    if trace != [] {
      var e := trace[0];
      StepIsDunning(a, e, settings);
      UnpaidDunning(a, Ops.Env(e.plans, e.settings, e.now, e.action.gateway));
      LastClockStep(clock, trace);
      if Ops.HasStatus(Step(a, e), Suspended) {
        SuspendedStays(Step(a, e), trace[1..], settings);
      } else {
        PastDueTimeline(Step(a, e), e.now, trace[1..], settings);
      }
    }
  }

  lemma {:induction false} LastClockStep(clock: int, trace: seq<Event>)
    requires trace != [] && Timely(clock, trace)
    ensures LastClock(trace[0].now, trace[1..]) == LastClock(clock, trace)
    ensures trace[0].now <= LastClock(clock, trace)
    decreases |trace|
  {
    if |trace| > 1 {
      LastClockStep(trace[0].now, trace[1..]);
    }
  }

  /** The first run at `instant` or later. */
  function FirstFrom(trace: seq<Event>, instant: int): int
    requires trace != [] && instant <= trace[|trace| - 1].now
  {
    if instant <= trace[0].now then trace[0].now else FirstFrom(trace[1..], instant)
  }

  /** The whole course of a missed payment: pending until grace ends, then past due, then suspended. */
  lemma {:induction false} PendingTimeline(a: Account, clock: int, trace: seq<Event>, settings: Settings)
    requires Ops.HasStatus(a, PaymentPending) && a.sub.value.graceEndsAt.Some? && !a.sub.value.automationPaused
    requires Timely(clock, trace) && UnpaidRuns(trace, settings, a.sub.value.planId)
    ensures var graceEnd, last := a.sub.value.graceEndsAt.value, LastClock(clock, trace);
            Ops.HasStatus(Run(a, trace),
                          if trace == [] || last < graceEnd then PaymentPending
                          else if last < SuspendAt(FirstFrom(trace, graceEnd), settings) then PastDue
                          else Suspended)
    decreases |trace|
  {
    hide Ops.Dunning;
    if trace != [] {
      var e := trace[0];
      StepIsDunning(a, e, settings);
      UnpaidDunning(a, Ops.Env(e.plans, e.settings, e.now, e.action.gateway));
      LastClockStep(clock, trace);
      var next := Step(a, e);
      if Ops.HasStatus(next, PaymentPending) {
        PendingTimeline(next, e.now, trace[1..], settings);
      } else if Ops.HasStatus(next, PastDue) {
        PastDueTimeline(next, e.now, trace[1..], settings);
      } else {
        SuspendedStays(next, trace[1..], settings);
      }
    }
  }

  // ------------------------------------------------- from the missed renewal

  /** A term that ended and must be paid for: renewing, not cancelled, not free. */
  predicate RenewalDue(a: Account, e: Event) {
    && a.sub.Some? && a.sub.value.planId in e.plans
    && a.sub.value.status in {Trial, Active}
    && !a.sub.value.automationPaused && !a.sub.value.cancelAtPeriodEnd && a.sub.value.autoRenew
    && Ops.RenewalStart(a.sub.value) <= e.now
    && var s := Ops.WithPendingChange(a.sub.value, e.plans); PriceFor(e.plans[s.planId], s.cycle) > 0
  }

  /** The missed renewal opens a grace period of `graceDays` from the run that found it. */
  lemma RenewalOpensGrace(a: Account, e: Event, settings: Settings)
    requires RenewalDue(a, e) && UnpaidRun(e, settings, a.sub.value.planId)
    ensures var r := Ops.EndOfTerm(a, Ops.Env(e.plans, e.settings, e.now, e.action.gateway));
            && Ops.HasStatus(r, PaymentPending) && !r.sub.value.automationPaused
            && r.sub.value.graceEndsAt == Some(AddDays(e.now, settings.graceDays))
  {
    hide AddCycle;
  }

  /** Full access for the grace days, no suspension before the overdue days on top of them. */
  lemma GraceIsHonoured(a: Account, trace: seq<Event>, settings: Settings, planId: PlanId)
    requires trace != [] && RenewalDue(a, trace[0]) && Timely(trace[0].now, trace)
    requires UnpaidRun(trace[0], settings, a.sub.value.planId)
    requires planId == Ops.WithPendingChange(a.sub.value, trace[0].plans).planId
    requires UnpaidRuns(trace[1..], settings, planId)
    ensures var missed, last, level := trace[0].now, trace[|trace| - 1].now, Access(Run(a, trace));
            && (last < AddDays(missed, settings.graceDays) ==> level == FULL)
            && (last < AddDays(missed, settings.graceDays + settings.suspendAfterPastDueDays) ==> level != SUSPENDED)
            && (|trace| > 1 && AddDays(missed, settings.graceDays) <= last ==> level != FULL)
  {
    hide Ops.Dunning, Ops.EndOfTerm, Ops.WithPendingChange, AddCycle;
    var e := trace[0];
    var env := Ops.Env(e.plans, e.settings, e.now, e.action.gateway);
    RenewalOpensGrace(a, e, settings);
    var pending := Ops.EndOfTerm(a, env);
    EndOfTermPlan(a, env);
    LastClockStep(e.now, trace);
    UnpaidDunning(pending, env);
    var next := Step(a, e);
    if Ops.HasStatus(next, PaymentPending) {
      PendingTimeline(next, e.now, trace[1..], settings);
      if |trace| > 1 && AddDays(e.now, settings.graceDays) <= LastClock(e.now, trace[1..]) {
        FirstFromIsLater(trace[1..], AddDays(e.now, settings.graceDays));
      }
    } else if Ops.HasStatus(next, PastDue) {
      PastDueTimeline(next, e.now, trace[1..], settings);
    } else {
      SuspendedStays(next, trace[1..], settings);
    }
  }

  lemma EndOfTermPlan(a: Account, env: Ops.Env)
    requires a.sub.Some? && Known(a, env.plans)
    requires Ops.HasStatus(Ops.EndOfTerm(a, env), PaymentPending) && a.sub.value.status in {Trial, Active}
    ensures Ops.EndOfTerm(a, env).sub.value.planId == Ops.WithPendingChange(a.sub.value, env.plans).planId
  {
    hide AddCycle;
  }

  lemma {:induction false} FirstFromIsLater(trace: seq<Event>, instant: int)
    requires trace != [] && instant <= trace[|trace| - 1].now
    ensures instant <= FirstFrom(trace, instant)
    decreases |trace|
  {
    if trace[0].now < instant {
      FirstFromIsLater(trace[1..], instant);
    }
  }
}
