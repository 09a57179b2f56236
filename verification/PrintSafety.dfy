/** A job is PRINTED only on the word of an agent that printed all of it, or of the shopkeeper. */
module PrintSafety {
  import opened Options
  import opened PrintStates
  import opened PrintProtocol
  import opened PrintLog

  /** A payload carries the items its job still has. */
  predicate PayloadOk(s: State, p: Payload) {
    p.job in s.jobs && p.items == s.jobs[p.job].items && s.jobs[p.job].attemptCount > 0
  }

  predicate RunOk(s: State, run: Run) {
    run.payload in s.payloads && run.accepted <= |run.payload.items|
  }

  /** PRINTED is reported once everything was accepted, after which the run does nothing more. */
  predicate ReportOk(s: State, r: Report) {
    && r.run in s.runs
    && (r.kind == ReportPrinted ==> s.runs[r.run].phase.Over? && s.runs[r.run].accepted == |s.runs[r.run].payload.items|)
  }

  predicate SentBy(s: State, r: Report, job: JobId) {
    r in s.sent && r.run in s.runs && s.runs[r.run].payload.job == job
  }

  predicate HandlerOk(s: State, h: Handler) {
    match h
    case ReportPickup(job, r) => SentBy(s, r, job)
    case ReportMove(job, r, _) => SentBy(s, r, job)
    case Retain(job, ack) => ack.Some? ==> SentBy(s, ack.value, job)
    case _ => true
  }

  /** All documents of the job, as it now stands, were accepted by the spooler in this run. */
  predicate Complete(s: State, run: RunId, job: JobId)
    requires job in s.jobs
  {
    && run in s.runs
    && s.runs[run].payload.job == job
    && s.runs[run].payload.items == s.jobs[job].items
    && s.runs[run].accepted == |s.jobs[job].items|
  }

  predicate Vouched(s: State, job: JobId, cause: Cause)
    requires job in s.jobs
  {
    cause == Shopkeeper || (cause.AgentReport? && Complete(s, cause.run, job))
  }

  ghost predicate PayloadsOk(s: State) { forall p :: p in s.payloads ==> PayloadOk(s, p) }

  ghost predicate RunsOk(s: State) { forall run :: run in s.runs ==> RunOk(s, s.runs[run]) }

  ghost predicate ReportsOk(s: State) {
    && (forall r :: r in s.sent ==> ReportOk(s, r))
    && (forall r :: r in s.acked ==> r in s.sent)
  }

  ghost predicate HandlersOk(s: State) { forall h :: h in s.pending ==> HandlerOk(s, h) }

  ghost predicate EventsVouched(s: State, job: JobId)
    requires job in s.jobs
  {
    forall k :: 0 <= k < |s.jobs[job].events| && s.jobs[job].events[k].status == Printed ==>
      Vouched(s, job, s.jobs[job].events[k].cause)
  }

  ghost predicate PrintsVouched(s: State) { forall job :: job in s.jobs ==> EventsVouched(s, job) }

  ghost predicate SafeInv(s: State) {
    LogInv(s) && PayloadsOk(s) && RunsOk(s) && ReportsOk(s) && HandlersOk(s) && PrintsVouched(s)
  }

  // ------------------------------------------------- what never changes

  /** An order's items are settled from its first press of PRINT on. */
  predicate JobEvolves(before: Job, after: Job) {
    && before.attemptCount <= after.attemptCount
    && (before.attemptCount > 0 ==> after.items == before.items)
  }

  /** A run keeps its payload, and one that is over or has everything accepted stops counting. */
  predicate RunEvolves(before: Run, after: Run) {
    && after.payload == before.payload
    && (before.phase.Over? ==> after == before)
    && (before.accepted == |before.payload.items| ==> after.accepted == before.accepted)
  }

  ghost predicate JobsEvolve(before: map<JobId, Job>, after: map<JobId, Job>) {
    forall job :: job in before ==> job in after && JobEvolves(before[job], after[job])
  }

  ghost predicate RunsEvolve(before: map<RunId, Run>, after: map<RunId, Run>) {
    forall run :: run in before ==> run in after && RunEvolves(before[run], after[run])
  }

  ghost predicate Evolves(s: State, t: State) {
    JobsEvolve(s.jobs, t.jobs) && RunsEvolve(s.runs, t.runs) && s.payloads <= t.payloads && s.sent <= t.sent
  }

  lemma JobUpdated(jobs: map<JobId, Job>, job: JobId, row: Job)
    requires job in jobs ==> JobEvolves(jobs[job], row)
    ensures JobsEvolve(jobs, jobs[job := row]) && JobsEvolve(jobs, jobs)
  {
  }

  lemma RunUpdated(runs: map<RunId, Run>, run: RunId, row: Run)
    requires run in runs ==> RunEvolves(runs[run], row)
    ensures RunsEvolve(runs, runs[run := row]) && RunsEvolve(runs, runs)
  {
  }

  lemma NothingEvolves(s: State)
    ensures JobsEvolve(s.jobs, s.jobs) && RunsEvolve(s.runs, s.runs)
  {
  }

  /** An order is edited only before it was ever queued. */
  lemma ItemsEvolve(s: State, job: JobId, items: seq<Item>)
    requires LogInv(s) && Editable(s, job)
    ensures JobsEvolve(s.jobs, WithItems(s, job, items).jobs)
  {
    assert JobOk(s, job);
    JobUpdated(s.jobs, job, s.jobs[job].(items := items));
  }

  lemma EditEvolves(s: State, step: Step)
    requires LogInv(s) && (step.EditItem? || step.DeleteItem? || step.ReorderItems?)
    ensures Evolves(s, EditOrder(s, step))
  {
    hide JobsEvolve, RunsEvolve, LogInv, WithItems;
    NothingEvolves(s);
    WithItemsFrame(s, step.job);
    if Editable(s, step.job) {
      var items := s.jobs[step.job].items;
      match step
      case EditItem(job, k, options) =>
        if k < |items| { ItemsEvolve(s, job, items[k := items[k].(options := options)]); }
      case DeleteItem(job, k) => if k < |items| { ItemsEvolve(s, job, items[..k] + items[k + 1..]); }
      case ReorderItems(job, order) => ItemsEvolve(s, job, order);
    }
  }

  lemma WithItemsFrame(s: State, job: JobId)
    ensures job in s.jobs ==> forall items :: SameTraffic(s, WithItems(s, job, items))
  {
  }

  lemma SwapEvolves(s: State, h: Handler, ok: bool)
    ensures Evolves(s, Write(s, h, ok))
  {
    hide Write, CasWins, JobsEvolve, RunsEvolve;
    WriteShape(s, h, ok);
    NothingEvolves(s);
    if Wins(s, h) {
      JobUpdated(s.jobs, h.job, Swapped(s.jobs[h.job], h));
    }
  }

  lemma MoveEvolves(row: Run, outcome: Outcome, acked: bool)
    requires row.accepted <= |row.payload.items|
    ensures RunEvolves(row, AgentMove(row, outcome, acked).run)
  {
  }

  lemma AgentEvolves(s: State, run: RunId, outcome: Outcome)
    requires RunsOk(s)
    ensures Evolves(s, AgentStep(s, run, outcome))
  {
    hide JobsEvolve, RunsEvolve, AgentMove, RunEvolves;
    NothingEvolves(s);
    if run in s.runs {
      var row, acked := s.runs[run], Report(run, Awaited(s.runs[run].phase)) in s.acked;
      assert RunOk(s, row);
      MoveEvolves(row, outcome, acked);
      RunUpdated(s.runs, run, AgentMove(row, outcome, acked).run);
    }
  }

  lemma DispatchEvolves(s: State, job: JobId, connected: bool)
    ensures Evolves(s, DispatchAttempt(s, job, connected))
  {
    hide JobsEvolve, RunsEvolve;
    NothingEvolves(s);
    if Live(s, job) && s.jobs[job].dispatches > 0 {
      JobUpdated(s.jobs, job, s.jobs[job].(dispatches := s.jobs[job].dispatches - 1));
    }
  }

  lemma DeliverEvolves(s: State, r: Report)
    ensures Evolves(s, DeliverReport(s, r))
  {
    hide JobsEvolve, RunsEvolve;
    NothingEvolves(s);
  }

  lemma ConfirmEvolves(s: State, job: JobId, items: seq<Item>)
    ensures Evolves(s, ConfirmOrder(s, job, items))
  {
    hide JobsEvolve, RunsEvolve;
    NothingEvolves(s);
    if job !in s.jobs {
      JobUpdated(s.jobs, job, NewJob(items));
    }
  }

  lemma RestEvolves(s: State, step: Step)
    requires IsRead(step) || step.Upload? || step.Poll? || step.Drop?
    ensures Evolves(s, Apply(s, step))
  {
    hide Begun, PayloadOf, JobsEvolve, RunsEvolve;
    NothingEvolves(s);
  }

  lemma StepEvolves(s: State, step: Step)
    requires LogInv(s) && RunsOk(s)
    ensures Evolves(s, Apply(s, step))
  {
    hide JobsEvolve, RunsEvolve, LogInv, RunsOk;
    hide EditOrder, Write, AgentStep, DispatchAttempt, DeliverReport, ConfirmOrder;
    NothingEvolves(s);
    match step
    case EditItem(_, _, _) => EditEvolves(s, step);
    case DeleteItem(_, _) => EditEvolves(s, step);
    case ReorderItems(_, _) => EditEvolves(s, step);
    case RunStep(run, outcome) => AgentEvolves(s, run, outcome);
    case DispatchRead(job, connected) => DispatchEvolves(s, job, connected);
    case Deliver(r) => DeliverEvolves(s, r);
    case Confirm(job, items) => ConfirmEvolves(s, job, items);
    case Exec(h, ok) => SwapEvolves(Remove(s, h), h, ok);
    case StartRun(run, payload) => if run !in s.runs { RunUpdated(s.runs, run, Run(payload, Accepting, 0)); }
    case ClearHistory(job) =>
      if Live(s, job) { JobUpdated(s.jobs, job, s.jobs[job].(cleared := true)); }
    case _ => RestEvolves(s, step);
  }

  // ---------------------------------------------------------- payloads

  /** Payloads are made for jobs that are queued or whose agent was found offline. */
  lemma PayloadOrigin(s: State, step: Step, p: Payload)
    requires p in Apply(s, step).payloads && p !in s.payloads
    ensures p.job in s.jobs && p.items == s.jobs[p.job].items && s.jobs[p.job].status in {Queued, AgentOffline}
  {
    hide EditOrder, ConfirmOrder, AgentStep, DeliverReport, Begun, Write;
    match step
    case Exec(h, ok) => WriteShape(Remove(s, h), h, ok);
    case EditItem(_, _, _) => EditEffects(s, step);
    case DeleteItem(_, _) => EditEffects(s, step);
    case ReorderItems(_, _) => EditEffects(s, step);
    case RunStep(run, outcome) => AgentEffects(s, run, outcome);
    case Deliver(r) => DeliverEffects(s, r);
    case Confirm(job, items) => ConfirmEffects(s, job, items);
    case _ =>
  }

  /** The parts of the state that only agents and dispatches touch. */
  predicate SameTraffic(s: State, t: State) {
    t.payloads == s.payloads && t.runs == s.runs && t.sent == s.sent
  }

  lemma EditEffects(s: State, step: Step)
    requires step.EditItem? || step.DeleteItem? || step.ReorderItems?
    ensures var t := EditOrder(s, step); SameTraffic(s, t) && t.acked == s.acked && t.pending == s.pending
  {
  }

  lemma AgentEffects(s: State, run: RunId, outcome: Outcome)
    ensures var t := AgentStep(s, run, outcome);
            t.payloads == s.payloads && t.jobs == s.jobs && t.acked == s.acked && t.pending == s.pending
  {
  }

  lemma DeliverEffects(s: State, r: Report)
    ensures SameTraffic(s, DeliverReport(s, r)) && DeliverReport(s, r).jobs == s.jobs
  {
    DeliverIsAnswer(s, r);
  }

  lemma DeliverIsAnswer(s: State, r: Report)
    ensures OnlyAnswers(s, DeliverReport(s, r))
  {
    hide OnlyAnswers, WithHandler;
    AcknowledgeIsAnswer(s, None);
    AcknowledgeIsAnswer(s, Some(r));
    if r.run in s.runs && Live(s, s.runs[r.run].payload.job) {
      var job := s.runs[r.run].payload.job;
      HandlerIsAnswer(s, ReportPickup(job, r));
      HandlerIsAnswer(s, ReportMove(job, r, s.jobs[job].status));
      HandlerIsAnswer(s, Retain(job, Some(r)));
    }
  }

  lemma ConfirmEffects(s: State, job: JobId, items: seq<Item>)
    ensures var t := ConfirmOrder(s, job, items);
            && SameTraffic(s, t) && t.acked == s.acked
            && forall h :: h in t.pending ==> h in s.pending || h == MakeEligible(job)
  {
  }

  lemma PayloadsKept(s: State, step: Step)
    requires LogInv(s) && PayloadsOk(s) && Evolves(s, Apply(s, step))
    ensures PayloadsOk(Apply(s, step))
  {
    hide Apply, LogOk, WithinBudget;
    var t := Apply(s, step);
    forall p | p in t.payloads ensures PayloadOk(t, p) {
      if p !in s.payloads {
        PayloadOrigin(s, step, p);
        assert JobOk(s, p.job);
        QueuedWasPressed(s, p.job);
      } else {
        assert PayloadOk(s, p);
      }
    }
  }

  lemma QueuedWasPressed(s: State, job: JobId)
    requires LogInv(s) && job in s.jobs && s.jobs[job].status !in {Created, PrintEligible, Cancelled}
    ensures s.jobs[job].attemptCount > 0
  {
    assert JobOk(s, job);
  }

  // --------------------------------------------------- runs and reports

  predicate SameRuns(s: State, t: State) {
    t.runs == s.runs && t.sent == s.sent
  }

  /** Steps other than an agent's start no run, move none and send no report. */
  lemma TrafficFrame(s: State, step: Step)
    requires !step.StartRun? && !step.RunStep?
    ensures SameRuns(s, Apply(s, step))
  {
    hide EditOrder, ConfirmOrder, DeliverReport, Write, DispatchAttempt, Begun, WithHandler, WithJob, SameRuns;
    NothingMoves(s);
    match step
    case Exec(h, ok) => WriteTraffic(s, h, ok);
    case EditItem(_, _, _) => EditMoves(s, step);
    case DeleteItem(_, _) => EditMoves(s, step);
    case ReorderItems(_, _) => EditMoves(s, step);
    case Deliver(r) => DeliverMoves(s, r);
    case Confirm(job, items) => ConfirmMoves(s, job, items);
    case DispatchRead(job, connected) => DispatchMoves(s, job, connected);
    case ClearHistory(job) => if Live(s, job) { RowMoves(s, job, s.jobs[job].(cleared := true)); }
    case Upload(doc) => UploadMoves(s, doc);
    case Poll(job) => PollMoves(s, job);
    case Drop(h) => RemoveMoves(s, h);
    case _ => ReadMoves(s, step);
  }

  lemma NothingMoves(s: State) ensures SameRuns(s, s) {}

  lemma HandlerMoves(s: State, h: Handler) ensures SameRuns(s, WithHandler(s, h)) {}

  lemma ReadMoves(s: State, step: Step)
    requires IsRead(step)
    ensures SameRuns(s, Apply(s, step))
  {
    hide Begun, WithHandler, SameRuns;
    NothingMoves(s);
    var begun := Begun(s, step);
    if begun.Some? {
      HandlerMoves(s, begun.value);
    }
  }

  lemma RowMoves(s: State, job: JobId, row: Job) ensures SameRuns(s, WithJob(s, job, row)) {}

  lemma RemoveMoves(s: State, h: Handler) ensures SameRuns(s, Remove(s, h)) {}

  lemma UploadMoves(s: State, doc: DocId) ensures SameRuns(s, Apply(s, Upload(doc))) {}

  lemma PollMoves(s: State, job: JobId) ensures SameRuns(s, PollJob(s, job)) {}

  lemma EditMoves(s: State, step: Step)
    requires step.EditItem? || step.DeleteItem? || step.ReorderItems?
    ensures SameRuns(s, EditOrder(s, step))
  {
    EditEffects(s, step);
  }

  lemma DeliverMoves(s: State, r: Report)
    ensures SameRuns(s, DeliverReport(s, r))
  {
    DeliverEffects(s, r);
  }

  lemma ConfirmMoves(s: State, job: JobId, items: seq<Item>)
    ensures SameRuns(s, ConfirmOrder(s, job, items))
  {
    ConfirmEffects(s, job, items);
  }

  lemma DispatchMoves(s: State, job: JobId, connected: bool)
    ensures SameRuns(s, DispatchAttempt(s, job, connected))
  {
  }

  lemma WriteTraffic(s: State, h: Handler, ok: bool)
    ensures SameRuns(s, Apply(s, Exec(h, ok)))
  {
    hide Write;
    WriteShape(Remove(s, h), h, ok);
  }

  lemma RunsKept(s: State, step: Step)
    requires RunsOk(s) && Evolves(s, Apply(s, step))
    ensures RunsOk(Apply(s, step))
  {
    var t := Apply(s, step);
    forall run | run in t.runs ensures RunOk(t, t.runs[run]) {
      if run in s.runs {
        assert RunOk(s, s.runs[run]);
        hide Apply;
        if step.RunStep? {
          RunStepEffect(s, step.run, step.outcome, run);
        } else if step.StartRun? {
          StartEffect(s, step, run);
        } else {
          TrafficFrame(s, step);
        }
      } else {
        hide Apply, Evolves;
        StartEffect(s, step, run);
      }
    }
  }

  lemma RunStepEffect(s: State, acting: RunId, outcome: Outcome, run: RunId)
    requires run in s.runs && s.runs[run].accepted <= |s.runs[run].payload.items|
    ensures var t := AgentStep(s, acting, outcome);
            && run in t.runs && t.runs[run].payload == s.runs[run].payload
            && t.runs[run].accepted <= |s.runs[run].payload.items|
  {
  }

  /** Runs start on payloads that were sent, with nothing accepted. */
  lemma StartEffect(s: State, step: Step, run: RunId)
    requires run in Apply(s, step).runs
    requires step.StartRun? || run !in s.runs
    ensures var t := Apply(s, step);
            if run in s.runs then t.runs[run] == s.runs[run]
            else step.StartRun? && t.payloads == s.payloads && t.runs[run].payload in s.payloads && t.runs[run].accepted == 0
  {
    if !step.StartRun? && !step.RunStep? {
      hide Apply;
      TrafficFrame(s, step);
    }
  }

  lemma AgentReports(row: Run, outcome: Outcome, acked: bool)
    requires row.accepted <= |row.payload.items|
    ensures var m := AgentMove(row, outcome, acked);
            m.report == Some(ReportPrinted) ==> m.run.phase.Over? && m.run.accepted == |m.run.payload.items|
  {
  }

  lemma SentKept(s: State, step: Step, r: Report)
    requires RunsOk(s) && ReportsOk(s) && Evolves(s, Apply(s, step)) && r in Apply(s, step).sent
    ensures ReportOk(Apply(s, step), r)
  {
    var t := Apply(s, step);
    if r in s.sent {
      hide Apply;
      assert ReportOk(s, r);
    } else if step.RunStep? && step.run in s.runs {
      var row := s.runs[step.run];
      assert RunOk(s, row);
      AgentReports(row, step.outcome, Report(step.run, Awaited(row.phase)) in s.acked);
      hide AgentMove, Awaited;
    } else if !step.StartRun? && !step.RunStep? {
      hide Apply;
      TrafficFrame(s, step);
    }
  }

  // ------------------------------------------------------------ handlers

  lemma SentByKept(s: State, t: State, r: Report, job: JobId)
    requires SentBy(s, r, job) && Evolves(s, t)
    ensures SentBy(t, r, job)
  {
  }

  lemma HandlerKept(s: State, t: State, h: Handler)
    requires HandlerOk(s, h) && Evolves(s, t)
    ensures HandlerOk(t, h)
  {
    hide SentBy, Evolves;
    match h
    case ReportPickup(job, r) => SentByKept(s, t, r, job);
    case ReportMove(job, r, _) => SentByKept(s, t, r, job);
    case Retain(job, ack) => if ack.Some? { SentByKept(s, t, ack.value, job); }
    case _ =>
  }

  /** A handler that a step starts or resumes refers to a report that was sent. */
  lemma HandlerOrigin(s: State, step: Step, h: Handler)
    requires HandlersOk(s) && h in Apply(s, step).pending
    ensures HandlerOk(s, h)
  {
    hide EditOrder, ConfirmOrder, AgentStep, Begun, Write, DeliverReport, DispatchAttempt, HandlersOk, HandlerOk;
    if h in s.pending {
      KnownHandler(s, h);
    } else {
      match step
      case Exec(g, ok) =>
        KnownHandler(s, g);
        WriteHandlers(s, g, ok, h);
      case EditItem(_, _, _) => EditEffects(s, step);
      case DeleteItem(_, _) => EditEffects(s, step);
      case ReorderItems(_, _) => EditEffects(s, step);
      case RunStep(run, outcome) => AgentEffects(s, run, outcome);
      case Deliver(r) => DeliverHandlers(s, r, h);
      case Confirm(job, items) =>
        ConfirmEffects(s, job, items);
        PlainHandler(s, h);
      case DispatchRead(job, connected) =>
        DispatchHandlers(s, job, connected, h);
        PlainHandler(s, h);
      case _ =>
        RestHandlers(s, step, h);
        PlainHandler(s, h);
    }
  }

  lemma RestHandlers(s: State, step: Step, h: Handler)
    requires IsRead(step) || step.Upload? || step.Poll? || step.StartRun? || step.ClearHistory? || step.Drop?
    requires h in Apply(s, step).pending && h !in s.pending
    ensures IsRead(step) && Begun(s, step) == Some(h)
  {
    hide Begun, PollJob, AfterMove;
    if step.Poll? { PollHandlers(s, step.job); }
    if step.StartRun? { MoveHandlers(s, step.run, Move(Run(step.payload, Accepting, 0), Some(ReportAccepted))); }
  }

  lemma PollHandlers(s: State, job: JobId)
    ensures PollJob(s, job).pending == s.pending
  {
    hide PayloadOf;
  }

  lemma MoveHandlers(s: State, run: RunId, move: Move)
    ensures AfterMove(s, run, move).pending == s.pending
  {
  }

  lemma KnownHandler(s: State, h: Handler)
    requires HandlersOk(s) && h in s.pending
    ensures HandlerOk(s, h)
  {
  }

  lemma PlainHandler(s: State, h: Handler)
    requires !h.ReportPickup? && !h.ReportMove? && !h.Retain?
    ensures HandlerOk(s, h)
  {
  }

  lemma DispatchHandlers(s: State, job: JobId, connected: bool, h: Handler)
    requires h in DispatchAttempt(s, job, connected).pending && h !in s.pending
    ensures h == GoOffline(job)
  {
    hide PayloadOf;
  }

  lemma DeliverHandlers(s: State, r: Report, h: Handler)
    requires h in DeliverReport(s, r).pending && h !in s.pending
    ensures HandlerOk(s, h)
  {
  }

  /** What goes on after a swap is about the same job and report. */
  lemma AfterSwapHandlers(s: State, t: State, g: Handler, h: Handler)
    requires HandlerOk(s, g) && h in AfterSwap(t, g).pending && h !in t.pending
    ensures HandlerOk(s, h)
  {
    hide SentBy;
  }

  lemma WriteHandlers(s: State, g: Handler, ok: bool, h: Handler)
    requires HandlerOk(s, g) && h in Write(Remove(s, g), g, ok).pending && h !in s.pending
    ensures HandlerOk(s, h)
  {
    hide Swapped, CasWins, HandlerOk, AfterSwap;
    var left := Remove(s, g);
    if g.MarkDeleted? || g.DeleteObjects? {
      SweepHandlers(left, g, ok, h);
      PlainHandler(s, h);
    } else if Wins(left, g) {
      AfterSwapHandlers(s, WithJob(left, g.job, Swapped(left.jobs[g.job], g)), g, h);
    }
  }

  lemma SweepHandlers(s: State, g: Handler, ok: bool, h: Handler)
    requires (g.MarkDeleted? || g.DeleteObjects?) && h in Write(s, g, ok).pending && h !in s.pending
    ensures h.MarkDeleted? || h.DeleteObjects?
  {
    hide Swapped, CasWins;
  }

  lemma AckedKept(s: State, step: Step, r: Report)
    requires ReportsOk(s) && HandlersOk(s) && Evolves(s, Apply(s, step)) && r in Apply(s, step).acked
    ensures r in Apply(s, step).sent
  {
    hide EditOrder, ConfirmOrder, AgentStep, Begun, Write, DeliverReport;
    if r !in s.acked {
      match step
      case Exec(g, ok) => WriteAcks(s, g, ok, r);
      case EditItem(_, _, _) => EditEffects(s, step);
      case DeleteItem(_, _) => EditEffects(s, step);
      case ReorderItems(_, _) => EditEffects(s, step);
      case RunStep(run, outcome) => AgentEffects(s, run, outcome);
      case Deliver(d) => DeliverAcks(s, d, r);
      case Confirm(job, items) => ConfirmEffects(s, job, items);
      case _ =>
    }
  }

  lemma DeliverAcks(s: State, d: Report, r: Report)
    requires r in DeliverReport(s, d).acked && r !in s.acked
    ensures r == d && r in s.sent
  {
  }

  lemma WriteAcks(s: State, g: Handler, ok: bool, r: Report)
    requires g in s.pending && HandlersOk(s) && r in Write(Remove(s, g), g, ok).acked && r !in s.acked
    ensures r in s.sent
  {
    assert HandlerOk(s, g);
    hide Swapped, CasWins, HandlersOk;
  }

  // -------------------------------------------------------- what printed

  lemma PrintedIsFrozen(s: State, job: JobId, k: nat)
    requires LogInv(s) && job in s.jobs && k < |s.jobs[job].events| && s.jobs[job].events[k].status == Printed
    ensures s.jobs[job].attemptCount > 0 && s.jobs[job].status in {Printed, RetentionPending, Deleted}
  {
    assert JobOk(s, job);
    TailIsLast(s.jobs[job].events, k);
  }

  lemma VouchedKept(s: State, t: State, job: JobId, cause: Cause)
    requires job in s.jobs && s.jobs[job].attemptCount > 0 && Vouched(s, job, cause) && Evolves(s, t)
    ensures Vouched(t, job, cause)
  {
  }

  lemma EventsKept(s: State, t: State, job: JobId)
    requires LogInv(s) && job in s.jobs && EventsVouched(s, job) && Evolves(s, t)
    requires t.jobs[job].events == s.jobs[job].events
    ensures EventsVouched(t, job)
  {
    forall k | 0 <= k < |t.jobs[job].events| && t.jobs[job].events[k].status == Printed
      ensures Vouched(t, job, t.jobs[job].events[k].cause)
    {
      PrintedIsFrozen(s, job, k);
      VouchedKept(s, t, job, s.jobs[job].events[k].cause);
    }
  }

  /** A swap to PRINTED comes from a report of a complete run or from the shopkeeper. */
  lemma PrintedWhy(s: State, h: Handler)
    requires SafeInv(s) && h in s.pending && Wins(s, h) && Goal(h) == Printed
    ensures Vouched(s, h.job, Reason(h))
  {
    assert HandlerOk(s, h);
    if h.ReportMove? {
      assert ReportOk(s, h.report);
      assert RunOk(s, s.runs[h.report.run]);
      assert PayloadOk(s, s.runs[h.report.run].payload);
    }
  }

  lemma SwapVouched(s: State, h: Handler, ok: bool)
    requires SafeInv(s) && h in s.pending
    requires var t := Write(Remove(s, h), h, ok);
             Evolves(s, t) && Wins(s, h) && t.jobs == s.jobs[h.job := Swapped(s.jobs[h.job], h)]
    ensures EventsVouched(Write(Remove(s, h), h, ok), h.job)
  {
    hide Write, LogInv, RunsOk, ReportsOk, PayloadsOk, HandlersOk, Evolves, CasWins, Vouched, SafeInv;
    var t := Write(Remove(s, h), h, ok);
    var events := s.jobs[h.job].events;
    SafeParts(s, h.job);
    forall k | 0 <= k < |t.jobs[h.job].events| && t.jobs[h.job].events[k].status == Printed
      ensures Vouched(t, h.job, t.jobs[h.job].events[k].cause)
    {
      if k < |events| {
        assert t.jobs[h.job].events[k] == events[k];
        PrintedIsFrozen(s, h.job, k);
        VouchedKept(s, t, h.job, events[k].cause);
      } else {
        assert t.jobs[h.job].events[k] == Event(Goal(h), Reason(h));
        PrintedWhy(s, h);
        FinishingWasPressed(s, h);
        VouchedKept(s, t, h.job, Reason(h));
      }
    }
  }

  lemma FinishingWasPressed(s: State, h: Handler)
    requires LogInv(s) && Wins(s, h) && Goal(h) == Printed
    ensures s.jobs[h.job].attemptCount > 0
  {
    QueuedWasPressed(s, h.job);
  }

  lemma SafeParts(s: State, job: JobId)
    requires SafeInv(s) && job in s.jobs
    ensures LogInv(s) && EventsVouched(s, job)
  {
  }

  /** Which events a step adds: a swap's one, or the first of a new order. */
  lemma NewEvents(s: State, step: Step, job: JobId)
    requires !step.Exec? && job in Apply(s, step).jobs
    ensures if job in s.jobs then Apply(s, step).jobs[job].events == s.jobs[job].events
            else Apply(s, step).jobs[job].events == [Event(Created, Confirmation)]
  {
    if step.DispatchRead? {
      DispatchEvents(s, step.job, step.connected, job);
    } else if step.Confirm? {
      ConfirmEvents(s, step.job, step.items, job);
    } else {
      hide Apply;
      QuietRows(s, step);
      assert job in s.jobs;
      assert SameLog(s.jobs[job], Apply(s, step).jobs[job]);
    }
  }

  lemma DispatchEvents(s: State, dispatched: JobId, connected: bool, job: JobId)
    requires job in DispatchAttempt(s, dispatched, connected).jobs
    ensures job in s.jobs && DispatchAttempt(s, dispatched, connected).jobs[job].events == s.jobs[job].events
  {
    hide PayloadOf;
  }

  lemma ConfirmEvents(s: State, confirmed: JobId, items: seq<Item>, job: JobId)
    requires job in ConfirmOrder(s, confirmed, items).jobs
    ensures ConfirmOrder(s, confirmed, items).jobs[job].events
         == if job in s.jobs then s.jobs[job].events else [Event(Created, Confirmation)]
  {
  }

  lemma PrintsKept(s: State, step: Step)
    requires SafeInv(s) && Evolves(s, Apply(s, step))
    ensures PrintsVouched(Apply(s, step))
  {
    hide LogInv, PayloadsOk, RunsOk, ReportsOk, HandlersOk, EventsVouched, Evolves, Write, Wins, Swapped;
    var t := Apply(s, step);
    forall job | job in t.jobs ensures EventsVouched(t, job) {
      if step.Exec? {
        if step.handler in s.pending {
          ExecVouched(s, step.handler, step.ok, job);
        }
      } else {
        NewEvents(s, step, job);
        hide Apply;
        if job in s.jobs {
          EventsKept(s, t, job);
        } else {
          NewOrderVouched(t, job);
        }
      }
    }
  }

  lemma NewOrderVouched(t: State, job: JobId)
    requires job in t.jobs && t.jobs[job].events == [Event(Created, Confirmation)]
    ensures EventsVouched(t, job)
  {
  }

  lemma ExecVouched(s: State, h: Handler, ok: bool, job: JobId)
    requires SafeInv(s) && h in s.pending && Evolves(s, Write(Remove(s, h), h, ok))
    requires job in Write(Remove(s, h), h, ok).jobs
    ensures EventsVouched(Write(Remove(s, h), h, ok), job)
  {
    hide LogInv, PayloadsOk, RunsOk, ReportsOk, HandlersOk, EventsVouched, Evolves, Write, Swapped, CasWins;
    var t := Write(Remove(s, h), h, ok);
    WriteShape(Remove(s, h), h, ok);
    if t.jobs[job] == s.jobs[job] {
      EventsKept(s, t, job);
    } else {
      SwapVouched(s, h, ok);
    }
  }

  // --------------------------------------------------------------- runs

  lemma ReportsKept(s: State, step: Step)
    requires SafeInv(s) && Evolves(s, Apply(s, step))
    ensures ReportsOk(Apply(s, step))
  {
    hide Evolves, Apply, ReportOk, LogInv, PayloadsOk, HandlersOk, RunsOk, PrintsVouched;
    var t := Apply(s, step);
    forall r | r in t.sent ensures ReportOk(t, r) { SentKept(s, step, r); }
    forall r | r in t.acked ensures r in t.sent { AckedKept(s, step, r); }
  }

  lemma HandlersKept(s: State, step: Step)
    requires SafeInv(s) && Evolves(s, Apply(s, step))
    ensures HandlersOk(Apply(s, step))
  {
    hide Evolves, Apply, HandlerOk, LogInv, PayloadsOk, ReportsOk, RunsOk, PrintsVouched;
    var t := Apply(s, step);
    forall h | h in t.pending ensures HandlerOk(t, h) {
      HandlerOrigin(s, step, h);
      HandlerKept(s, t, h);
    }
  }

  lemma StepKeepsSafe(s: State, step: Step)
    requires SafeInv(s)
    ensures SafeInv(Apply(s, step)) && Evolves(s, Apply(s, step))
  {
    hide Evolves, LogInv, Apply, PrintsVouched, PayloadsOk, RunsOk, ReportsOk, HandlersOk;
    StepEvolves(s, step);
    StepKeepsLogs(s, step);
    PayloadsKept(s, step);
    RunsKept(s, step);
    ReportsKept(s, step);
    HandlersKept(s, step);
    PrintsKept(s, step);
  }

  lemma {:induction false} ExecutionKeepsSafe(s: State, steps: seq<Step>)
    requires SafeInv(s)
    ensures SafeInv(Execute(s, steps))
    decreases |steps|
  {
    hide SafeInv, Apply, Evolves;
    if steps != [] {
      StepKeepsSafe(s, steps[0]);
      ExecutionKeepsSafe(Apply(s, steps[0]), steps[1..]);
    }
  }

  lemma {:induction false} ExecutionFreezes(s: State, steps: seq<Step>, job: JobId)
    requires SafeInv(s) && job in s.jobs && s.jobs[job].attemptCount > 0
    ensures var t := Execute(s, steps); job in t.jobs && t.jobs[job].items == s.jobs[job].items
    decreases |steps|
  {
    hide SafeInv, Apply;
    if steps != [] {
      StepKeepsSafe(s, steps[0]);
      ExecutionFreezes(Apply(s, steps[0]), steps[1..], job);
    }
  }

  /** From its first press of PRINT on, whatever happens, an order keeps its documents, their settings and order. */
  lemma QueuedOrdersAreFrozen(before: seq<Step>, after: seq<Step>, job: JobId)
    requires var s := Execute(Initial, before); job in s.jobs && s.jobs[job].attemptCount > 0
    ensures var s := Execute(Initial, before); var t := Execute(s, after);
            job in t.jobs && t.jobs[job].items == s.jobs[job].items
  {
    ExecutionKeepsSafe(Initial, before);
    hide SafeInv;
    ExecutionFreezes(Execute(Initial, before), after, job);
  }

  /**
   * In every reachable state, an event says PRINTED only if the shopkeeper resolved the job so, or the run it
   * names had every document of the job accepted; and a job has at most one such event.
   */
  lemma PrintedMeansPrinted(steps: seq<Step>, job: JobId, k: nat)
    requires var s := Execute(Initial, steps); job in s.jobs && k < |s.jobs[job].events|
    requires Execute(Initial, steps).jobs[job].events[k].status == Printed
    ensures var s := Execute(Initial, steps); var cause := s.jobs[job].events[k].cause;
            || cause == Shopkeeper
            || (cause.AgentReport? && Complete(s, cause.run, job))
    ensures var events := Execute(Initial, steps).jobs[job].events;
            forall j :: 0 <= j < |events| && events[j].status == Printed ==> j == k
  {
    hide Execute;
    var s := Execute(Initial, steps);
    ExecutionKeepsSafe(Initial, steps);
    assert JobOk(s, job) && EventsVouched(s, job);
    var events := s.jobs[job].events;
    forall j | 0 <= j < |events| && events[j].status == Printed ensures j == k {
      if j < k { PrintedOnce(events, j, k); }
      if k < j { PrintedOnce(events, k, j); }
    }
  }
}
