/** Who may have caused each event of an order, in every reachable state of backend, network and agents. */
module PrintCauses {
  import opened Options
  import opened PrintStates
  import opened PrintProtocol
  import opened PrintLog
  import opened PrintSafety

  /** The run worked on this job and sent this report. */
  predicate Reported(s: State, run: RunId, job: JobId, kind: ReportKind) {
    run in s.runs && s.runs[run].payload.job == job && Report(run, kind) in s.sent
  }

  /** Each status with the causes it can have; an agent's word must have been sent by a run on this very job. */
  predicate Caused(s: State, job: JobId, e: Event) {
    match e.status
    case Created => e.cause == Confirmation
    case PrintEligible => e.cause == Confirmation
    case Queued => e.cause == Press || (e.cause.Pickup? && e.cause.run in s.runs && s.runs[e.cause.run].payload.job == job)
    case AgentOffline => e.cause == Dispatch
    case Printing =>
      e.cause.AgentReport? &&
      (Reported(s, e.cause.run, job, ReportAccepted) || Reported(s, e.cause.run, job, ReportPrinting))
    case Printed => e.cause == Shopkeeper || (e.cause.AgentReport? && Reported(s, e.cause.run, job, ReportPrinted))
    case PrintFailed => e.cause == Shopkeeper || (e.cause.AgentReport? && Reported(s, e.cause.run, job, ReportFailed))
    case PrintUnknown => e.cause == StaleSweep || (e.cause.AgentReport? && Reported(s, e.cause.run, job, ReportUnknown))
    case RetentionPending => e.cause == Retention
    case Deleted => e.cause == Retention
    case Cancelled => false
  }

  ghost predicate JobCaused(s: State, job: JobId)
    requires job in s.jobs
  {
    forall k :: 0 <= k < |s.jobs[job].events| ==> Caused(s, job, s.jobs[job].events[k])
  }

  ghost predicate AllCaused(s: State) {
    forall job :: job in s.jobs ==> JobCaused(s, job)
  }

  lemma ReportedStays(s: State, t: State, run: RunId, job: JobId, kind: ReportKind)
    requires Reported(s, run, job, kind) && Evolves(s, t)
    ensures Reported(t, run, job, kind)
  {
  }

  lemma CausedStays(s: State, t: State, job: JobId, e: Event)
    requires Caused(s, job, e) && Evolves(s, t)
    ensures Caused(t, job, e)
  {
    hide JobsEvolve;
  }

  lemma SafeHandler(s: State, h: Handler)
    requires SafeInv(s) && h in s.pending
    ensures HandlerOk(s, h)
  {
    hide LogInv, PayloadsOk, RunsOk, ReportsOk, PrintsVouched;
  }

  /** A swap's event has a cause that fits, for every handler in progress. */
  lemma SwapCaused(s: State, h: Handler)
    requires SafeInv(s) && h in s.pending
    ensures Caused(s, h.job, if h.PressPrint? then Event(Queued, Press) else Event(Goal(h), Reason(h)))
  {
    hide SafeInv;
    SafeHandler(s, h);
  }

  lemma SwappedCaused(s: State, h: Handler, ok: bool)
    requires SafeInv(s) && h in s.pending && h.job in s.jobs && JobCaused(s, h.job) && Wins(s, h)
    requires var t := Write(Remove(s, h), h, ok);
             Evolves(s, t) && h.job in t.jobs && t.jobs[h.job] == Swapped(s.jobs[h.job], h)
    ensures JobCaused(Write(Remove(s, h), h, ok), h.job)
  {
    hide SafeInv, Write, Evolves, Caused, CasWins;
    var t := Write(Remove(s, h), h, ok);
    var events := s.jobs[h.job].events;
    SwapCaused(s, h);
    forall k | 0 <= k < |t.jobs[h.job].events| ensures Caused(t, h.job, t.jobs[h.job].events[k]) {
      if k < |events| {
        assert t.jobs[h.job].events[k] == events[k];
        CausedStays(s, t, h.job, events[k]);
      } else {
        CausedStays(s, t, h.job, t.jobs[h.job].events[k]);
      }
    }
  }

  lemma SameEventsCaused(s: State, t: State, job: JobId)
    requires job in s.jobs && job in t.jobs && JobCaused(s, job) && Evolves(s, t)
    requires t.jobs[job].events == s.jobs[job].events
    ensures JobCaused(t, job)
  {
    hide Evolves, Caused;
    forall k | 0 <= k < |t.jobs[job].events| ensures Caused(t, job, t.jobs[job].events[k]) {
      CausedStays(s, t, job, s.jobs[job].events[k]);
    }
  }

  lemma ExecCaused(s: State, h: Handler, ok: bool, job: JobId)
    requires SafeInv(s) && AllCaused(s) && h in s.pending && Evolves(s, Write(Remove(s, h), h, ok))
    requires job in Write(Remove(s, h), h, ok).jobs
    ensures JobCaused(Write(Remove(s, h), h, ok), job)
  {
    hide SafeInv, Write, Evolves, JobCaused, Swapped, CasWins;
    WriteShape(Remove(s, h), h, ok);
    if Write(Remove(s, h), h, ok).jobs[job] == s.jobs[job] {
      SameEventsCaused(s, Write(Remove(s, h), h, ok), job);
    } else {
      SwappedCaused(s, h, ok);
    }
  }

  lemma NewOrderCaused(t: State, job: JobId)
    requires job in t.jobs && t.jobs[job].events == [Event(Created, Confirmation)]
    ensures JobCaused(t, job)
  {
  }

  lemma StepCaused(s: State, step: Step, job: JobId)
    requires SafeInv(s) && AllCaused(s) && Evolves(s, Apply(s, step)) && job in Apply(s, step).jobs
    ensures JobCaused(Apply(s, step), job)
  {
    hide SafeInv, JobCaused, Evolves, Write;
    if step.Exec? && step.handler in s.pending {
      ExecCaused(s, step.handler, step.ok, job);
    } else if step.Exec? {
      assert Apply(s, step) == s;
    } else {
      NewEvents(s, step, job);
      hide Apply;
      if job in s.jobs {
        SameEventsCaused(s, Apply(s, step), job);
      } else {
        NewOrderCaused(Apply(s, step), job);
      }
    }
  }

  lemma StepKeepsCauses(s: State, step: Step)
    requires SafeInv(s) && AllCaused(s)
    ensures SafeInv(Apply(s, step)) && AllCaused(Apply(s, step))
  {
    hide SafeInv, JobCaused, Evolves, Apply;
    StepKeepsSafe(s, step);
    forall job | job in Apply(s, step).jobs ensures JobCaused(Apply(s, step), job) {
      StepCaused(s, step, job);
    }
  }

  lemma {:induction false} ExecutionKeepsCauses(s: State, steps: seq<Step>)
    requires SafeInv(s) && AllCaused(s)
    ensures AllCaused(Execute(s, steps))
    decreases |steps|
  {
    hide SafeInv, AllCaused, Apply;
    if steps != [] {
      StepKeepsCauses(s, steps[0]);
      ExecutionKeepsCauses(Apply(s, steps[0]), steps[1..]);
    }
  }

  /**
   * In every reachable state each event of an order has one of its causes, and an agent is named only for what a run
   * on that order reported: a failure for PRINT_FAILED, an unclear outcome for PRINT_UNKNOWN.
   */
  lemma EventsHaveCauses(steps: seq<Step>, job: JobId, k: nat)
    requires var s := Execute(Initial, steps); job in s.jobs && k < |s.jobs[job].events|
    ensures var s := Execute(Initial, steps); Caused(s, job, s.jobs[job].events[k])
  {
    hide Execute, Caused;
    ExecutionKeepsCauses(Initial, steps);
    assert JobCaused(Execute(Initial, steps), job);
  }
}
