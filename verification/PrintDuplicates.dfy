/** A late or duplicate payload prints nothing once the backend knows the job is finished, failed or unclear. */
module PrintDuplicates {
  import opened Options
  import opened PrintStates
  import opened PrintProtocol
  import opened PrintLog
  import opened PrintSafety

  predicate Shut(status: JobStatus) {
    status in {Printed, RetentionPending, Deleted, PrintFailed, PrintUnknown}
  }

  predicate FindsShut(s: State, run: RunId) {
    run in s.runs && Live(s, s.runs[run].payload.job) ==> Shut(s.jobs[s.runs[run].payload.job].status)
  }

  /** Each time the run's ACCEPTED report arrives, its job is finished, failed, unclear or gone. */
  predicate AlwaysFindsShut(s: State, steps: seq<Step>, run: RunId)
    decreases |steps|
  {
    steps == [] ||
    (&& (steps[0] == Deliver(Report(run, ReportAccepted)) ==> FindsShut(s, run))
     && AlwaysFindsShut(Apply(s, steps[0]), steps[1..], run))
  }

  /** A handler that can still acknowledge the report. */
  predicate MayAnswer(h: Handler, r: Report) {
    match h
    case ReportPickup(_, report) => report == r
    case ReportMove(_, report, from) => report == r && CanTransition(from, Target(r.kind))
    case Retain(_, ack) => ack == Some(r)
    case _ => false
  }

  ghost predicate Unanswered(s: State, r: Report) {
    r !in s.acked && forall h :: h in s.pending ==> !MayAnswer(h, r)
  }

  predicate Idle(s: State, run: RunId) {
    run in s.runs ==> s.runs[run].accepted == 0 && s.runs[run].phase in {Accepting, Over}
  }

  lemma DeliverUnanswered(s: State, d: Report, run: RunId)
    requires Unanswered(s, Report(run, ReportAccepted))
    requires d == Report(run, ReportAccepted) ==> FindsShut(s, run)
    ensures Unanswered(DeliverReport(s, d), Report(run, ReportAccepted))
  {
  }

  lemma ConfirmUnanswered(s: State, job: JobId, items: seq<Item>, r: Report)
    requires Unanswered(s, r)
    ensures Unanswered(ConfirmOrder(s, job, items), r)
  {
    ConfirmEffects(s, job, items);
  }

  lemma EditUnanswered(s: State, step: Step, r: Report)
    requires Unanswered(s, r) && (step.EditItem? || step.DeleteItem? || step.ReorderItems?)
    ensures Unanswered(EditOrder(s, step), r)
  {
    EditEffects(s, step);
  }

  lemma HandlerUnanswered(s: State, h: Handler, r: Report)
    requires Unanswered(s, r) && !MayAnswer(h, r)
    ensures Unanswered(WithHandler(s, h), r)
  {
  }

  lemma SameUnanswered(s: State, t: State, r: Report)
    requires Unanswered(s, r) && t.acked == s.acked && t.pending <= s.pending
    ensures Unanswered(t, r)
  {
  }

  lemma AfterSwapUnanswered(s: State, h: Handler, r: Report)
    requires Unanswered(s, r) && !MayAnswer(h, r) && CanTransition(Origin(h), Goal(h))
    ensures Unanswered(AfterSwap(s, h), r)
  {
    hide WithHandler, Unanswered;
    match h
    case ReportPickup(job, report) => HandlerUnanswered(s, ReportMove(job, report, Queued), r);
    case ReportMove(job, report, _) =>
      if report.kind == ReportPrinted { HandlerUnanswered(s, Retain(job, Some(report)), r); }
      else { AcknowledgeUnanswered(s, Some(report), r); }
    case Retain(_, ack) => AcknowledgeUnanswered(s, ack, r);
    case Resolve(job, printed) => HandlerUnanswered(s, Retain(job, None), r);
    case _ =>
  }

  lemma AcknowledgeUnanswered(s: State, ack: Option<Report>, r: Report)
    requires Unanswered(s, r) && ack != Some(r)
    ensures Unanswered(Acknowledge(s, ack), r)
  {
  }

  lemma WriteUnanswered(s: State, h: Handler, ok: bool, r: Report)
    requires Unanswered(s, r) && h in s.pending
    ensures Unanswered(Write(Remove(s, h), h, ok), r)
  {
    assert !MayAnswer(h, r);
    var left := Remove(s, h);
    SameUnanswered(s, left, r);
    hide Swapped, Unanswered, WithHandler, AfterSwap;
    if h.MarkDeleted? {
      var marked := left.(docs := left.docs[h.doc := true]);
      SameUnanswered(left, marked, r);
      HandlerUnanswered(marked, DeleteObjects(h.job, h.todo, h.failed), r);
    } else if h.DeleteObjects? && h.todo != [] {
      var gone := left.(storage := left.storage - {h.todo[0]});
      SameUnanswered(left, gone, r);
      HandlerUnanswered(gone, MarkDeleted(h.job, h.todo[0], h.todo[1..], h.failed), r);
      HandlerUnanswered(left, DeleteObjects(h.job, h.todo[1..], true), r);
    } else if Wins(left, h) {
      var swapped := WithJob(left, h.job, Swapped(left.jobs[h.job], h));
      SameUnanswered(left, swapped, r);
      AfterSwapUnanswered(swapped, h, r);
    }
  }

  lemma DispatchUnanswered(s: State, job: JobId, connected: bool, r: Report)
    requires Unanswered(s, r)
    ensures Unanswered(DispatchAttempt(s, job, connected), r)
  {
    hide PayloadOf;
  }

  lemma AgentUnanswered(s: State, run: RunId, outcome: Outcome, r: Report)
    requires Unanswered(s, r)
    ensures Unanswered(AgentStep(s, run, outcome), r)
  {
    AgentEffects(s, run, outcome);
  }

  lemma ReadUnanswered(s: State, step: Step, r: Report)
    requires Unanswered(s, r) && IsRead(step)
    ensures Unanswered(Apply(s, step), r)
  {
    hide WithHandler, Unanswered, Begun;
    var begun := Begun(s, step);
    if begun.Some? {
      HandlerUnanswered(s, begun.value, r);
    }
  }

  lemma PollUnanswered(s: State, job: JobId, r: Report)
    requires Unanswered(s, r)
    ensures Unanswered(PollJob(s, job), r)
  {
    hide Unanswered, PayloadOf;
    SameUnanswered(s, PollJob(s, job), r);
  }

  lemma MoveUnanswered(s: State, run: RunId, move: Move, r: Report)
    requires Unanswered(s, r)
    ensures Unanswered(AfterMove(s, run, move), r)
  {
  }

  lemma RowUnanswered(s: State, job: JobId, row: Job, r: Report)
    requires Unanswered(s, r)
    ensures Unanswered(WithJob(s, job, row), r)
  {
  }

  lemma RemoveUnanswered(s: State, h: Handler, r: Report)
    requires Unanswered(s, r)
    ensures Unanswered(Remove(s, h), r)
  {
  }

  lemma RestUnanswered(s: State, step: Step, r: Report)
    requires Unanswered(s, r) && (step.Upload? || step.Poll? || step.StartRun? || step.ClearHistory? || step.Drop?)
    ensures Unanswered(Apply(s, step), r)
  {
    hide Unanswered, PayloadOf, AfterMove, WithJob, Remove;
    match step
    case Upload(doc) => SameUnanswered(s, Apply(s, step), r);
    case Poll(job) => PollUnanswered(s, job, r);
    case StartRun(run, payload) => MoveUnanswered(s, run, Move(Run(payload, Accepting, 0), Some(ReportAccepted)), r);
    case ClearHistory(job) => if Live(s, job) { RowUnanswered(s, job, s.jobs[job].(cleared := true), r); }
    case Drop(h) => RemoveUnanswered(s, h, r);
  }

  lemma StepUnanswered(s: State, step: Step, run: RunId)
    requires Unanswered(s, Report(run, ReportAccepted))
    requires step == Deliver(Report(run, ReportAccepted)) ==> FindsShut(s, run)
    ensures Unanswered(Apply(s, step), Report(run, ReportAccepted))
  {
    hide EditOrder, ConfirmOrder, DeliverReport, Write, DispatchAttempt, AgentStep, Begun, WithHandler, Unanswered;
    var r := Report(run, ReportAccepted);
    match step
    case Exec(h, ok) => if h in s.pending { WriteUnanswered(s, h, ok, r); }
    case EditItem(_, _, _) => EditUnanswered(s, step, r);
    case DeleteItem(_, _) => EditUnanswered(s, step, r);
    case ReorderItems(_, _) => EditUnanswered(s, step, r);
    case Deliver(d) => DeliverUnanswered(s, d, run);
    case Confirm(job, items) => ConfirmUnanswered(s, job, items, r);
    case DispatchRead(job, connected) => DispatchUnanswered(s, job, connected, r);
    case RunStep(agent, outcome) => AgentUnanswered(s, agent, outcome, r);
    case _ => if IsRead(step) { ReadUnanswered(s, step, r); } else { RestUnanswered(s, step, r); }
  }

  /** A run whose ACCEPTED was never acknowledged submits nothing. */
  lemma StepIdle(s: State, step: Step, run: RunId)
    requires Idle(s, run) && Report(run, ReportAccepted) !in s.acked
    ensures Idle(Apply(s, step), run)
  {
    if !step.StartRun? && !step.RunStep? {
      hide Apply;
      TrafficFrame(s, step);
    }
  }

  lemma {:induction false} StaysIdle(s: State, steps: seq<Step>, run: RunId)
    requires Idle(s, run) && Unanswered(s, Report(run, ReportAccepted)) && AlwaysFindsShut(s, steps, run)
    ensures Idle(Execute(s, steps), run)
    decreases |steps|
  {
    hide Apply, Idle;
    if steps != [] {
      StepIdle(s, steps[0], run);
      StepUnanswered(s, steps[0], run);
      StaysIdle(Apply(s, steps[0]), steps[1..], run);
    }
  }

  lemma FreshRunUnanswered(s: State, run: RunId)
    requires SafeInv(s) && run !in s.runs
    ensures Unanswered(s, Report(run, ReportAccepted))
  {
    var r := Report(run, ReportAccepted);
    if r in s.acked {
      var known := ReportOk(s, r);
    }
    forall h | h in s.pending ensures !MayAnswer(h, r) {
      assert HandlerOk(s, h);
    }
  }

  /**
   * An agent run that starts after any history, and whose ACCEPTED report, however often and whenever it arrives,
   * always finds the job finished, failed or unclear, submits no document.
   */
  lemma DuplicatePushPrintsNothing(before: seq<Step>, after: seq<Step>, run: RunId)
    requires run !in Execute(Initial, before).runs
    requires AlwaysFindsShut(Execute(Initial, before), after, run)
    ensures var t := Execute(Execute(Initial, before), after);
            run in t.runs ==> t.runs[run].accepted == 0 && t.runs[run].phase in {Accepting, Over}
  {
    hide AlwaysFindsShut, Execute;
    var s := Execute(Initial, before);
    ExecutionKeepsSafe(Initial, before);
    FreshRunUnanswered(s, run);
    StaysIdle(s, after, run);
  }
}
