/**
 * Backend, network and print agents as one transition system. A handler reads a job and acts on what it read
 * later, one write at a time; between its steps anything else may happen, and it may stop for good.
 * Payloads and reports that were sent once may arrive at any time, any number of times, or never.
 */
module PrintProtocol {
  import opened Options
  import opened PrintStates

  type JobId = nat

  /** What an agent is told to print, and on whose behalf. */
  datatype Payload = Payload(job: JobId, items: seq<Item>, printer: PrinterId, attempt: nat)

  /** An agent's work on one payload: waiting for ACCEPTED or PRINTING to be acknowledged, printing, or over. */
  datatype Phase = Accepting | Starting | Submitting | Over

  datatype Run = Run(payload: Payload, phase: Phase, accepted: nat)

  datatype ReportKind = ReportAccepted | ReportPrinting | ReportPrinted | ReportFailed | ReportUnknown

  datatype Report = Report(run: RunId, kind: ReportKind)

  function Target(kind: ReportKind): JobStatus {
    match kind
    case ReportAccepted | ReportPrinting => Printing
    case ReportPrinted => Printed
    case ReportFailed => PrintFailed
    case ReportUnknown => PrintUnknown
  }

  /** A handler between two of its awaited steps, with what it read. */
  datatype Handler =
    | MakeEligible(job: JobId)
    | PressPrint(job: JobId, from: JobStatus, printer: PrinterId)
    | GoOffline(job: JobId)
    | ReportPickup(job: JobId, report: Report)
    | ReportMove(job: JobId, report: Report, from: JobStatus)
    | Retain(job: JobId, ack: Option<Report>)
    | Resolve(job: JobId, printed: bool)
    | FlagStale(job: JobId)
    | DeleteObjects(job: JobId, todo: seq<DocId>, failed: bool)
    | MarkDeleted(job: JobId, doc: DocId, todo: seq<DocId>, failed: bool)

  /**
   * `docs` maps each document to whether its row is marked DELETED; `storage` holds the documents whose
   * uploaded object exists.
   */
  datatype State = State(
    jobs: map<JobId, Job>,
    docs: map<DocId, bool>,
    storage: set<DocId>,
    payloads: set<Payload>,
    runs: map<RunId, Run>,
    sent: set<Report>,
    acked: set<Report>,
    pending: multiset<Handler>)

  const Initial := State(map[], map[], {}, {}, map[], {}, {}, multiset{})

  /** How an agent's next action turns out. */
  datatype Outcome = Succeeds | Fails | Unclear

  datatype Step =
    | Upload(doc: DocId)
    | Confirm(job: JobId, items: seq<Item>)
    | EditItem(job: JobId, k: nat, options: nat)
    | DeleteItem(job: JobId, k: nat)
    | ReorderItems(job: JobId, items: seq<Item>)
    | PressRead(job: JobId, printer: PrinterId)
    | DispatchRead(job: JobId, connected: bool)
    | Poll(job: JobId)
    | StartRun(run: RunId, payload: Payload)
    | RunStep(run: RunId, outcome: Outcome)
    | Deliver(report: Report)
    | ReconcileRead(job: JobId, printed: bool)
    | StaleRead(job: JobId)
    | SweepRead(job: JobId)
    | ClearHistory(job: JobId)
    | Exec(handler: Handler, ok: bool)
    | Drop(handler: Handler)

  predicate Live(s: State, job: JobId) {
    job in s.jobs && !s.jobs[job].cleared
  }

  function WithHandler(s: State, h: Handler): State {
    s.(pending := s.pending + multiset{h})
  }

  function WithJob(s: State, job: JobId, row: Job): State {
    s.(jobs := s.jobs[job := row])
  }

  // --------------------------------------------------- customer and shop

  /** A new order: its row and first event in one transaction, its documents made printable again. */
  function ConfirmOrder(s: State, job: JobId, items: seq<Item>): State {
    if job in s.jobs || items == [] || exists k :: 0 <= k < |items| && items[k].doc !in s.docs then s
    else
      var marked := set k | 0 <= k < |items| :: items[k].doc;
      WithHandler(s.(jobs := s.jobs[job := NewJob(items)],
                     docs := map d | d in s.docs :: if d in marked then false else s.docs[d]),
                  MakeEligible(job))
  }

  predicate Editable(s: State, job: JobId) {
    Live(s, job) && s.jobs[job].status == PrintEligible
  }

  function WithItems(s: State, job: JobId, items: seq<Item>): State
    requires job in s.jobs
  {
    WithJob(s, job, s.jobs[job].(items := items))
  }

  function EditOrder(s: State, step: Step): State
    requires step.EditItem? || step.DeleteItem? || step.ReorderItems?
  {
    if !Editable(s, step.job) then s
    else
      var items := s.jobs[step.job].items;
      match step
      case EditItem(job, k, options) =>
        if k < |items| then WithItems(s, job, items[k := items[k].(options := options)]) else s
      case DeleteItem(job, k) =>
        if k < |items| && |items| > 1 then
          WithItems(s, job, items[..k] + items[k + 1..]).(docs := s.docs[items[k].doc := false])
        else s
      case ReorderItems(job, order) =>
        if multiset(order) == multiset(items) then WithItems(s, job, order) else s
      case _ => s
  }

  /** PRINT is offered for orders that wait, failed or found the agent offline. */
  predicate Pressable(status: JobStatus) {
    status == PrintEligible || status == AgentOffline || status == PrintFailed
  }

  // ------------------------------------------------------------ dispatch

  function PayloadOf(s: State, job: JobId, printer: PrinterId): Payload
    requires job in s.jobs
  {
    Payload(job, s.jobs[job].items, printer, s.jobs[job].attemptCount)
  }

  /** One dispatch attempt: the job is pushed to its connected agent, or found offline. */
  function DispatchAttempt(s: State, job: JobId, connected: bool): State {
    if !Live(s, job) || s.jobs[job].dispatches == 0 then s
    else
      var row := s.jobs[job];
      var tried := WithJob(s, job, row.(dispatches := row.dispatches - 1));
      if row.status != Queued then tried
      else if row.printer.None? || !connected then WithHandler(tried, GoOffline(job))
      else tried.(payloads := s.payloads + {PayloadOf(s, job, row.printer.value)})
  }

  /** The polling fallback also hands out jobs whose agent was found offline. */
  function PollJob(s: State, job: JobId): State {
    if Live(s, job) && s.jobs[job].status in {Queued, AgentOffline} && s.jobs[job].printer.Some? then
      s.(payloads := s.payloads + {PayloadOf(s, job, s.jobs[job].printer.value)})
    else s
  }

  // --------------------------------------------------------------- agent

  /** A run's next state and what it reports, if anything. */
  datatype Move = Move(run: Run, report: Option<ReportKind>)

  function Stop(row: Run, kind: ReportKind): Move {
    Move(row.(phase := Over), Some(kind))
  }

  /** `acked` tells whether the backend acknowledged the report the run waits for. */
  function AgentMove(row: Run, outcome: Outcome, acked: bool): Move {
    match row.phase
    case Accepting =>
      if outcome == Fails then Stop(row, ReportFailed)
      else if acked then Move(row.(phase := Starting), Some(ReportPrinting))
      else Move(row, None)
    case Starting =>
      if outcome == Fails then Stop(row, ReportFailed)
      else if acked then Move(row.(phase := Submitting), None)
      else Move(row, None)
    case Submitting =>
      if row.accepted >= |row.payload.items| then Stop(row, ReportPrinted)
      else if outcome == Succeeds then Move(row.(accepted := row.accepted + 1), None)
      else Stop(row, if outcome == Fails then ReportFailed else ReportUnknown)
    case Over => Move(row, None)
  }

  function Awaited(phase: Phase): ReportKind {
    if phase == Starting then ReportPrinting else ReportAccepted
  }

  /** A run with its new row, and its report on the wire. */
  function AfterMove(s: State, run: RunId, move: Move): State {
    s.(runs := s.runs[run := move.run],
       sent := s.sent + if move.report.Some? then {Report(run, move.report.value)} else {})
  }

  function AgentStep(s: State, run: RunId, outcome: Outcome): State {
    if run !in s.runs then s
    else
      var row := s.runs[run];
      AfterMove(s, run, AgentMove(row, outcome, Report(run, Awaited(row.phase)) in s.acked))
  }

  /** The backend reads the job an agent's report is about. */
  function DeliverReport(s: State, r: Report): State {
    if r !in s.sent || r.run !in s.runs || !Live(s, s.runs[r.run].payload.job) then s
    else
      var job := s.runs[r.run].payload.job;
      var status := s.jobs[job].status;
      if s.jobs[job].printer != Some(s.runs[r.run].payload.printer) then s
      else if status == AgentOffline && Target(r.kind) != PrintFailed then WithHandler(s, ReportPickup(job, r))
      else if status != Target(r.kind) then WithHandler(s, ReportMove(job, r, status))
      else if status == Printed then WithHandler(s, Retain(job, Some(r)))
      else s.(acked := s.acked + {r})
  }

  // ----------------------------------------------------- handlers' writes

  /** The status a handler's compare-and-swap starts from. */
  function Origin(h: Handler): JobStatus {
    match h
    case MakeEligible(_) => Created
    case PressPrint(_, from, _) => from
    case GoOffline(_) => Queued
    case ReportPickup(_, _) => AgentOffline
    case ReportMove(_, _, from) => from
    case Retain(_, _) => Printed
    case Resolve(_, _) => PrintUnknown
    case FlagStale(_) => Printing
    case DeleteObjects(_, _, _) | MarkDeleted(_, _, _, _) => RetentionPending
  }

  /** The status it aims at. */
  function Goal(h: Handler): JobStatus {
    match h
    case MakeEligible(_) => PrintEligible
    case PressPrint(_, _, _) | ReportPickup(_, _) => Queued
    case GoOffline(_) => AgentOffline
    case ReportMove(_, r, _) => Target(r.kind)
    case Retain(_, _) => RetentionPending
    case Resolve(_, printed) => if printed then Printed else PrintFailed
    case FlagStale(_) => PrintUnknown
    case DeleteObjects(_, _, _) | MarkDeleted(_, _, _, _) => Deleted
  }

  /** What its event records as the cause. */
  function Reason(h: Handler): Cause {
    match h
    case MakeEligible(_) => Confirmation
    case PressPrint(_, _, _) => Press
    case GoOffline(_) => Dispatch
    case ReportPickup(_, r) => Pickup(r.run)
    case ReportMove(_, r, _) => AgentReport(r.run)
    case Resolve(_, _) => Shopkeeper
    case FlagStale(_) => StaleSweep
    case Retain(_, _) | DeleteObjects(_, _, _) | MarkDeleted(_, _, _, _) => Retention
  }

  function Swapped(row: Job, h: Handler): Job {
    if h.PressPrint? then Pressed(row, h.printer) else Moved(row, Goal(h), Reason(h))
  }

  predicate Wins(s: State, h: Handler) {
    h.job in s.jobs && CasWins(s.jobs[h.job], Origin(h), Goal(h))
  }

  /** What a handler does after its compare-and-swap went through: a further write, or its answer. */
  function AfterSwap(s: State, h: Handler): State {
    match h
    case ReportPickup(job, r) => WithHandler(s, ReportMove(job, r, Queued))
    case ReportMove(job, r, _) =>
      if r.kind == ReportPrinted then WithHandler(s, Retain(job, Some(r))) else Acknowledge(s, Some(r))
    case Retain(_, ack) => Acknowledge(s, ack)
    case Resolve(job, printed) => if printed then WithHandler(s, Retain(job, None)) else s
    case _ => s
  }

  function Acknowledge(s: State, ack: Option<Report>): State {
    if ack.Some? then s.(acked := s.acked + {ack.value}) else s
  }

  /** Deleting the next uploaded object; one that fails keeps its document for the next sweep. */
  function DeleteNext(s: State, job: JobId, todo: seq<DocId>, failed: bool, ok: bool): State
    requires todo != []
  {
    if ok then WithHandler(s.(storage := s.storage - {todo[0]}), MarkDeleted(job, todo[0], todo[1..], failed))
    else WithHandler(s, DeleteObjects(job, todo[1..], true))
  }

  /** The next write of a handler; a compare-and-swap that loses ends it. */
  function Write(s: State, h: Handler, ok: bool): State {
    if h.MarkDeleted? then WithHandler(s.(docs := s.docs[h.doc := true]), DeleteObjects(h.job, h.todo, h.failed))
    else if h.DeleteObjects? && h.todo != [] then DeleteNext(s, h.job, h.todo, h.failed, ok)
    else if h.DeleteObjects? && h.failed then s
    else if Wins(s, h) then AfterSwap(WithJob(s, h.job, Swapped(s.jobs[h.job], h)), h)
    else s
  }

  function Remove(s: State, h: Handler): State {
    s.(pending := s.pending - multiset{h})
  }

  /** Documents of a finished order whose rows are not marked deleted yet, in item order. */
  function PendingDocs(docs: map<DocId, bool>, items: seq<Item>): seq<DocId> {
    if items == [] then []
    else
      var doc := items[0].doc;
      (if doc in docs && docs[doc] then [] else [doc]) + PendingDocs(docs, items[1..])
  }

  /** Steps in which a handler reads a job before it acts. */
  predicate IsRead(step: Step) {
    step.PressRead? || step.ReconcileRead? || step.StaleRead? || step.SweepRead?
  }

  /** The handler that goes on, unless the job it read is gone or in another status. */
  function Begun(s: State, step: Step): (begun: Option<Handler>)
    requires IsRead(step)
    ensures begun.Some? ==>
              var h := begun.value;
              step.job in s.jobs && h.job == step.job && (h.PressPrint? || h.Resolve? || h.FlagStale? || h.DeleteObjects?)
  {
    if !Live(s, step.job) then None
    else
      var row := s.jobs[step.job];
      match step
      case PressRead(job, printer) => if Pressable(row.status) then Some(PressPrint(job, row.status, printer)) else None
      case ReconcileRead(job, printed) => if row.status == PrintUnknown then Some(Resolve(job, printed)) else None
      case StaleRead(job) => if row.status == Printing then Some(FlagStale(job)) else None
      case SweepRead(job) =>
        if row.status == RetentionPending then Some(DeleteObjects(job, PendingDocs(s.docs, row.items), false)) else None
      case _ => None
  }

  function Apply(s: State, step: Step): State {
    match step
    case Upload(doc) => if doc in s.docs then s else s.(docs := s.docs[doc := false], storage := s.storage + {doc})
    case Confirm(job, items) => ConfirmOrder(s, job, items)
    case EditItem(_, _, _) => EditOrder(s, step)
    case DeleteItem(_, _) => EditOrder(s, step)
    case ReorderItems(_, _) => EditOrder(s, step)
    case DispatchRead(job, connected) => DispatchAttempt(s, job, connected)
    case Poll(job) => PollJob(s, job)
    case StartRun(run, payload) =>
      if run in s.runs || payload !in s.payloads then s
      else AfterMove(s, run, Move(Run(payload, Accepting, 0), Some(ReportAccepted)))
    case RunStep(run, outcome) => AgentStep(s, run, outcome)
    case Deliver(report) => DeliverReport(s, report)
    case ClearHistory(job) =>
      if Live(s, job) && s.jobs[job].status in {Deleted, Cancelled} then
        WithJob(s, job, s.jobs[job].(cleared := true))
      else s
    case Exec(h, ok) => if h in s.pending then Write(Remove(s, h), h, ok) else s
    case Drop(h) => Remove(s, h)
    case _ =>
      var begun := Begun(s, step);
      if begun.Some? then WithHandler(s, begun.value) else s
  }

  function Execute(s: State, steps: seq<Step>): State
    decreases |steps|
  {
    if steps == [] then s else Execute(Apply(s, steps[0]), steps[1..])
  }

  // ------------------------------------------------- shape of the writes

  /** Everything but the handlers and acknowledgements is as it was, and no dispatch has given up. */
  ghost predicate OnlyAnswers(s: State, t: State) {
    && t.jobs == s.jobs && t.docs == s.docs && t.storage == s.storage
    && t.payloads == s.payloads && t.runs == s.runs && t.sent == s.sent
    && forall job :: t.pending[GoOffline(job)] == s.pending[GoOffline(job)]
  }

  lemma HandlerIsAnswer(s: State, h: Handler)
    requires !h.GoOffline?
    ensures OnlyAnswers(s, WithHandler(s, h))
  {
  }

  lemma AcknowledgeIsAnswer(s: State, ack: Option<Report>)
    ensures OnlyAnswers(s, Acknowledge(s, ack))
  {
  }

  lemma AfterSwapFrame(s: State, h: Handler)
    ensures OnlyAnswers(s, AfterSwap(s, h))
  {
    hide OnlyAnswers, WithHandler;
    AcknowledgeIsAnswer(s, None);
    match h
    case ReportPickup(job, r) => HandlerIsAnswer(s, ReportMove(job, r, Queued));
    case ReportMove(job, r, _) =>
      HandlerIsAnswer(s, Retain(job, Some(r)));
      AcknowledgeIsAnswer(s, Some(r));
    case Retain(_, ack) => AcknowledgeIsAnswer(s, ack);
    case Resolve(job, _) => HandlerIsAnswer(s, Retain(job, None));
    case _ =>
  }

  /** A write swaps its own job's row along a legal edge, or leaves every row alone. */
  lemma WriteShape(s: State, h: Handler, ok: bool)
    ensures var t := Write(s, h, ok);
            && (|| t.jobs == s.jobs
                || (Wins(s, h) && t.jobs == s.jobs[h.job := Swapped(s.jobs[h.job], h)]))
            && t.jobs.Keys == s.jobs.Keys
            && t.payloads == s.payloads && t.runs == s.runs && t.sent == s.sent
            && forall job :: t.pending[GoOffline(job)] == s.pending[GoOffline(job)]
  {
    hide CasWins, Swapped, AfterSwap;
    if Wins(s, h) {
      AfterSwapFrame(WithJob(s, h.job, Swapped(s.jobs[h.job], h)), h);
    }
  }
}
