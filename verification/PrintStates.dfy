/** The print-job state machine: legal status changes and the compare-and-swap that applies one. */
module PrintStates {
  import opened Options

  datatype JobStatus =
    | Created | PrintEligible | Queued | Printing | PrintUnknown | AgentOffline | PrintFailed
    | Printed | RetentionPending | Deleted | Cancelled

  function AllowedTransitions(from: JobStatus): set<JobStatus> {
    match from
    case Created => {PrintEligible, Cancelled}
    case PrintEligible => {Queued, Cancelled}
    case Queued => {Printing, AgentOffline, PrintFailed}
    case Printing => {Printed, PrintFailed, PrintUnknown}
    case PrintUnknown => {Printed, PrintFailed}
    case AgentOffline => {Queued, PrintFailed}
    case PrintFailed => {Queued}
    case Printed => {RetentionPending}
    case RetentionPending => {Deleted}
    case Deleted => {}
    case Cancelled => {}
  }

  predicate CanTransition(from: JobStatus, to: JobStatus) {
    to in AllowedTransitions(from)
  }

  type DocId = nat
  type PrinterId = nat
  type RunId = nat

  /** One document of an order; `options` stands for its print settings and edited render. */
  datatype Item = Item(doc: DocId, options: nat)

  /** What made a status change: a person, a service, or the agent run whose report arrived. */
  datatype Cause =
    | Confirmation | Press | Dispatch | Pickup(run: RunId) | AgentReport(run: RunId) | Shopkeeper | StaleSweep
    | Retention

  datatype Event = Event(status: JobStatus, cause: Cause)

  /** A print job's row with its items in print order, its events, and the dispatch attempts not used yet. */
  datatype Job = Job(
    status: JobStatus,
    items: seq<Item>,
    printer: Option<PrinterId>,
    attemptCount: nat,
    dispatches: nat,
    events: seq<Event>,
    cleared: bool)

  function NewJob(items: seq<Item>): Job {
    Job(Created, items, None, 0, 0, [Event(Created, Confirmation)], false)
  }

  /** Whether a compare-and-swap from `from` to `to` goes through on this row. */
  predicate CasWins(job: Job, from: JobStatus, to: JobStatus) {
    CanTransition(from, to) && !job.cleared && job.status == from
  }

  /** The row after a compare-and-swap that went through. */
  function Moved(job: Job, to: JobStatus, cause: Cause): Job {
    job.(status := to, events := job.events + [Event(to, cause)])
  }

  /** Dispatch attempts that each press of PRINT enqueues. */
  const DISPATCH_ATTEMPTS := 5

  /** The row after a press of PRINT: queued for a printer, with a new attempt. */
  function Pressed(job: Job, printer: PrinterId): Job {
    Moved(job, Queued, Press).(printer := Some(printer), attemptCount := job.attemptCount + 1,
                               dispatches := job.dispatches + DISPATCH_ATTEMPTS)
  }

  // ---------------------------------------------------------- event log

  predicate IsPress(e: Event) { e == Event(Queued, Press) }

  function Presses(events: seq<Event>): nat {
    if events == [] then 0
    else Presses(events[..|events| - 1]) + if IsPress(events[|events| - 1]) then 1 else 0
  }

  /** A legal run of the state machine that starts with the customer's confirmation. */
  predicate LegalRun(events: seq<Event>) {
    && events != [] && events[0] == Event(Created, Confirmation)
    && forall k :: 0 < k < |events| ==> CanTransition(events[k - 1].status, events[k].status)
  }

  /** The events are a legal run to the stored status, and attemptCount counts the presses among them. */
  predicate LogOk(job: Job) {
    && LegalRun(job.events)
    && job.events[|job.events| - 1].status == job.status
    && job.attemptCount == Presses(job.events)
    && (job.status in {Created, PrintEligible, Cancelled} <==> job.attemptCount == 0)
  }

  lemma NewJobLog(items: seq<Item>)
    ensures LogOk(NewJob(items))
  {
  }

  lemma PressesStep(events: seq<Event>, e: Event)
    ensures Presses(events + [e]) == Presses(events) + if IsPress(e) then 1 else 0
  {
    assert (events + [e])[..|events|] == events;
  }

  lemma LegalStep(events: seq<Event>, e: Event)
    requires LegalRun(events) && CanTransition(events[|events| - 1].status, e.status)
    ensures LegalRun(events + [e])
  {
    var longer := events + [e];
    forall k | 0 < k < |longer| ensures CanTransition(longer[k - 1].status, longer[k].status) {
      if k < |events| {
        assert longer[k - 1] == events[k - 1] && longer[k] == events[k];
      }
    }
  }

  /** Every swap but a press keeps the log; only a press may leave PrintEligible for the queue. */
  lemma MovedLog(job: Job, to: JobStatus, cause: Cause)
    requires LogOk(job) && CanTransition(job.status, to) && cause != Press
    requires to == Queued ==> job.status == AgentOffline
    ensures LogOk(Moved(job, to, cause))
  {
    LegalStep(job.events, Event(to, cause));
    PressesStep(job.events, Event(to, cause));
  }

  lemma PressedLog(job: Job, printer: PrinterId)
    requires LogOk(job) && CanTransition(job.status, Queued)
    ensures LogOk(Pressed(job, printer))
  {
    LegalStep(job.events, Event(Queued, Press));
    PressesStep(job.events, Event(Queued, Press));
  }

  // -------------------------------------------------- length of the log

  /** Status changes still to come without another press or failed dispatch. */
  function StepsLeft(status: JobStatus): nat {
    match status
    case AgentOffline => 6
    case Queued => 5
    case Printing => 4
    case PrintUnknown | Created => 3
    case PrintEligible | PrintFailed | Printed => 2
    case RetentionPending => 1
    case Deleted | Cancelled => 0
  }

  /** `offline` counts the dispatch attempts that are about to report the agent offline. */
  predicate WithinBudget(job: Job, offline: nat) {
    |job.events| + StepsLeft(job.status) + 2 * (job.dispatches + offline) <= 14 * job.attemptCount + 4
  }

  /** Any legal step but a press and an AGENT_OFFLINE lowers the count. */
  lemma OrdinaryStep(from: JobStatus, to: JobStatus)
    requires CanTransition(from, to) && to != AgentOffline && (to == Queued ==> from == AgentOffline)
    ensures StepsLeft(to) < StepsLeft(from)
  {
  }

  lemma MovedBudget(job: Job, to: JobStatus, cause: Cause, offline: nat)
    requires WithinBudget(job, offline) && CanTransition(job.status, to)
    requires to != AgentOffline && (to == Queued ==> job.status == AgentOffline)
    ensures WithinBudget(Moved(job, to, cause), offline)
  {
    OrdinaryStep(job.status, to);
  }

  lemma OfflineBudget(job: Job, cause: Cause, offline: nat)
    requires WithinBudget(job, offline) && job.status == Queued && offline > 0
    ensures WithinBudget(Moved(job, AgentOffline, cause), offline - 1)
  {
  }

  lemma PressedBudget(job: Job, printer: PrinterId, offline: nat)
    requires WithinBudget(job, offline) && CanTransition(job.status, Queued)
    ensures WithinBudget(Pressed(job, printer), offline)
  {
  }

  // --------------------------------------------------- facts of a log

  predicate WasPrinted(events: seq<Event>) {
    exists k :: 0 <= k < |events| && events[k].status == Printed
  }

  function Tail(status: JobStatus): nat {
    match status
    case Printed => 1
    case RetentionPending => 2
    case Deleted => 3
    case _ => 0
  }

  lemma {:induction false} TailIsLast(events: seq<Event>, k: nat)
    requires LegalRun(events) && k < |events|
    ensures Tail(events[k].status) > 0 ==>
              Tail(events[|events| - 1].status) == Tail(events[k].status) + |events| - 1 - k
    decreases |events| - k
  {
    if k + 1 < |events| {
      TailIsLast(events, k + 1);
    }
  }

  /** A log holds at most one PRINTED event. */
  lemma PrintedOnce(events: seq<Event>, j: nat, k: nat)
    requires LegalRun(events) && j < k < |events| && events[j].status == Printed
    ensures events[k].status != Printed
  {
    TailIsLast(events, j);
    TailIsLast(events, k);
  }

  lemma {:induction false} FinishedWasPrinted(events: seq<Event>)
    requires LegalRun(events) && Tail(events[|events| - 1].status) > 0
    ensures WasPrinted(events)
    decreases |events|
  {
    var n := |events| - 1;
    if events[n].status != Printed {
      FinishedWasPrinted(events[..n]);
      var k :| 0 <= k < n && events[..n][k].status == Printed;
      assert events[k].status == Printed;
    }
  }
}
