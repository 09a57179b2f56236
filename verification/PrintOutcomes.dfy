/** What each handler, run on its own, leaves of an order: statuses, events and acknowledgements by name. */
module PrintOutcomes {
  import opened Options
  import opened PrintStates
  import opened PrintProtocol
  import opened PrintService

  /** An agent's report about a live order of its own printer, with no handler in progress. */
  predicate OnOwnPrinter(s: State, r: Report, job: JobId) {
    && Idle(s) && r in s.sent && r.run in s.runs && s.runs[r.run].payload.job == job
    && Live(s, job) && s.jobs[job].printer == Some(s.runs[r.run].payload.printer)
  }

  /** The row after these further events, the last of which gives the status. */
  function With(row: Job, events: seq<Event>): Job
    requires events != []
  {
    row.(status := events[|events| - 1].status, events := row.events + events)
  }

  /** Only this order's row changed, and the report alone was acknowledged, if at all. */
  predicate Leaves(s: State, t: State, job: JobId, row: Job, r: Report, acked: bool) {
    && t.jobs == s.jobs[job := row] && t.acked == s.acked + (if acked then {r} else {})
    && t.docs == s.docs && t.storage == s.storage && t.payloads == s.payloads && t.pending == s.pending
  }

  lemma MovedIs(row: Job, to: JobStatus, cause: Cause)
    ensures Moved(row, to, cause) == With(row, [Event(to, cause)])
  {
  }

  lemma MovedTwice(row: Job, first: Event, second: Event)
    ensures Moved(Moved(row, first.status, first.cause), second.status, second.cause) == With(row, [first, second])
  {
    assert row.events + [first] + [second] == row.events + [first, second];
  }

  lemma SameRowLeaves(s: State, job: JobId, r: Report)
    requires job in s.jobs
    ensures Leaves(s, s, job, s.jobs[job], r, false) && Leaves(s, Acknowledge(s, Some(r)), job, s.jobs[job], r, true)
  {
    SameRow(s, job);
  }

  lemma RowLeaves(s: State, job: JobId, row: Job, r: Report)
    ensures Leaves(s, WithJob(s, job, row), job, row, r, false)
    ensures Leaves(s, Acknowledge(WithJob(s, job, row), Some(r)), job, row, r, true)
  {
  }

  /** While printing, every report says what became of the order. */
  lemma ReportWhilePrinting(s: State, run: RunId, kind: ReportKind, job: JobId)
    requires OnOwnPrinter(s, Report(run, kind), job) && s.jobs[job].status == Printing
    ensures var r, row := Report(run, kind), s.jobs[job];
            var t := Alone(s, Deliver(r));
            match kind
            case ReportFailed => Leaves(s, t, job, With(row, [Event(PrintFailed, AgentReport(run))]), r, true)
            case ReportUnknown => Leaves(s, t, job, With(row, [Event(PrintUnknown, AgentReport(run))]), r, true)
            case ReportPrinted =>
              Leaves(s, t, job, With(row, [Event(Printed, AgentReport(run)), Event(RetentionPending, Retention)]), r, true)
            case ReportAccepted => Leaves(s, t, job, row, r, true)
            case ReportPrinting => Leaves(s, t, job, row, r, true)
  {
    var r, row := Report(run, kind), s.jobs[job];
    DeliverAlone(s, r);
    SameRowLeaves(s, job, r);
    hide Leaves, WithJob, Acknowledge, Alone, With, Moved;
    ReportLeaves(s, job, r, PickedUp(row, r));
    MovedIs(row, PrintFailed, AgentReport(run));
    MovedIs(row, PrintUnknown, AgentReport(run));
    MovedTwice(row, Event(Printed, AgentReport(run)), Event(RetentionPending, Retention));
  }

  lemma ReportLeaves(s: State, job: JobId, r: Report, row: Job)
    ensures var moved := MovedOn(row, r);
            if moved.Some? then Leaves(s, AfterReport(s, job, row, r), job, moved.value, r, true)
            else Leaves(s, AfterReport(s, job, row, r), job, row, r, false)
  {
    hide MovedOn;
    if MovedOn(row, r).Some? {
      RowLeaves(s, job, MovedOn(row, r).value, r);
    } else {
      RowLeaves(s, job, row, r);
    }
  }

  /** Before printing, only progress and failure are taken; an outcome that skips printing is refused. */
  lemma ReportWhileQueued(s: State, run: RunId, kind: ReportKind, job: JobId)
    requires OnOwnPrinter(s, Report(run, kind), job) && s.jobs[job].status == Queued
    ensures var r, row := Report(run, kind), s.jobs[job];
            var t := Alone(s, Deliver(r));
            match kind
            case ReportAccepted => Leaves(s, t, job, With(row, [Event(Printing, AgentReport(run))]), r, true)
            case ReportPrinting => Leaves(s, t, job, With(row, [Event(Printing, AgentReport(run))]), r, true)
            case ReportFailed => Leaves(s, t, job, With(row, [Event(PrintFailed, AgentReport(run))]), r, true)
            case ReportPrinted => Leaves(s, t, job, row, r, false)
            case ReportUnknown => Leaves(s, t, job, row, r, false)
  {
    var r, row := Report(run, kind), s.jobs[job];
    DeliverAlone(s, r);
    SameRowLeaves(s, job, r);
    hide Leaves, WithJob, Acknowledge, Alone, With, Moved;
    ReportLeaves(s, job, r, PickedUp(row, r));
    MovedIs(row, PrintFailed, AgentReport(run));
    MovedIs(row, Printing, AgentReport(run));
  }

  /** An agent that was thought offline takes the order back to the queue first, unless it reports a failure. */
  lemma ReportWhileOffline(s: State, run: RunId, kind: ReportKind, job: JobId)
    requires OnOwnPrinter(s, Report(run, kind), job) && s.jobs[job].status == AgentOffline
    ensures var r, row, back := Report(run, kind), s.jobs[job], Event(Queued, Pickup(run));
            var t := Alone(s, Deliver(r));
            match kind
            case ReportAccepted => Leaves(s, t, job, With(row, [back, Event(Printing, AgentReport(run))]), r, true)
            case ReportPrinting => Leaves(s, t, job, With(row, [back, Event(Printing, AgentReport(run))]), r, true)
            case ReportFailed => Leaves(s, t, job, With(row, [Event(PrintFailed, AgentReport(run))]), r, true)
            case ReportPrinted => Leaves(s, t, job, With(row, [back]), r, false)
            case ReportUnknown => Leaves(s, t, job, With(row, [back]), r, false)
  {
    var r, row := Report(run, kind), s.jobs[job];
    DeliverAlone(s, r);
    StatusMoved(row, Queued, Pickup(run));
    hide Leaves, WithJob, Acknowledge, Alone, With, Moved;
    ReportLeaves(s, job, r, PickedUp(row, r));
    MovedIs(row, PrintFailed, AgentReport(run));
    MovedIs(row, Queued, Pickup(run));
    MovedTwice(row, Event(Queued, Pickup(run)), Event(Printing, AgentReport(run)));
  }

  /** Between its two swaps to retention an order is only moved on by another report that it printed. */
  lemma ReportWhilePrinted(s: State, run: RunId, kind: ReportKind, job: JobId)
    requires OnOwnPrinter(s, Report(run, kind), job) && s.jobs[job].status == Printed
    ensures var r, row := Report(run, kind), s.jobs[job];
            if kind == ReportPrinted then
              Leaves(s, Alone(s, Deliver(r)), job, With(row, [Event(RetentionPending, Retention)]), r, true)
            else Leaves(s, Alone(s, Deliver(r)), job, row, r, false)
  {
    var r, row := Report(run, kind), s.jobs[job];
    DeliverAlone(s, r);
    SameRowLeaves(s, job, r);
    hide Leaves, WithJob, Acknowledge, Alone, With, Moved;
    ReportLeaves(s, job, r, PickedUp(row, r));
    MovedIs(row, RetentionPending, Retention);
  }

  /** In doubt, a late outcome settles the order; a repeated doubt is only acknowledged. */
  lemma ReportWhileInDoubt(s: State, run: RunId, kind: ReportKind, job: JobId)
    requires OnOwnPrinter(s, Report(run, kind), job) && s.jobs[job].status == PrintUnknown
    ensures var r, row := Report(run, kind), s.jobs[job];
            var t := Alone(s, Deliver(r));
            match kind
            case ReportFailed => Leaves(s, t, job, With(row, [Event(PrintFailed, AgentReport(run))]), r, true)
            case ReportPrinted =>
              Leaves(s, t, job, With(row, [Event(Printed, AgentReport(run)), Event(RetentionPending, Retention)]), r, true)
            case ReportUnknown => Leaves(s, t, job, row, r, true)
            case ReportAccepted => Leaves(s, t, job, row, r, false)
            case ReportPrinting => Leaves(s, t, job, row, r, false)
  {
    var r, row := Report(run, kind), s.jobs[job];
    DeliverAlone(s, r);
    SameRowLeaves(s, job, r);
    hide Leaves, WithJob, Acknowledge, Alone, With, Moved;
    ReportLeaves(s, job, r, PickedUp(row, r));
    MovedIs(row, PrintFailed, AgentReport(run));
    MovedTwice(row, Event(Printed, AgentReport(run)), Event(RetentionPending, Retention));
  }

  /** A finished, failed or never queued order is left as it is; what it says already is acknowledged. */
  lemma ReportTooLate(s: State, run: RunId, kind: ReportKind, job: JobId)
    requires OnOwnPrinter(s, Report(run, kind), job)
    requires s.jobs[job].status in {Created, PrintEligible, PrintFailed, RetentionPending, Deleted, Cancelled}
    ensures Leaves(s, Alone(s, Deliver(Report(run, kind))), job, s.jobs[job], Report(run, kind),
                   s.jobs[job].status == PrintFailed && kind == ReportFailed)
  {
    var r, row := Report(run, kind), s.jobs[job];
    DeliverAlone(s, r);
    SameRowLeaves(s, job, r);
    hide Leaves, WithJob, Acknowledge, Alone, Moved;
    ReportLeaves(s, job, r, PickedUp(row, r));
  }

  /** A report about an order of another printer, or one that is gone, changes nothing. */
  lemma ReportFromElsewhere(s: State, r: Report)
    requires Idle(s) && r in s.sent && r.run in s.runs
    requires var p := s.runs[r.run].payload; Live(s, p.job) ==> s.jobs[p.job].printer != Some(p.printer)
    ensures Alone(s, Deliver(r)) == s
  {
    hide Alone;
    DeliverAlone(s, r);
  }

  // ------------------------------------------------------ shop and services

  /** PRINT queues an order that waits, failed or found the agent offline, for the printer chosen; five dispatches follow. */
  lemma PressQueues(s: State, job: JobId, printer: PrinterId)
    requires Idle(s)
    ensures Alone(s, PressRead(job, printer)) ==
            if Live(s, job) && s.jobs[job].status in {PrintEligible, AgentOffline, PrintFailed} then
              var row := s.jobs[job];
              s.(jobs := s.jobs[job := row.(status := Queued, printer := Some(printer), attemptCount := row.attemptCount + 1,
                                            dispatches := row.dispatches + 5, events := row.events + [Event(Queued, Press)])])
            else s
  {
    hide Alone;
    PressAlone(s, job, printer);
  }

  /** A dispatch hands a queued order with its items to its printer's agent, or records that the agent is offline. */
  lemma DispatchSends(s: State, job: JobId, connected: bool)
    requires Idle(s) && Live(s, job) && s.jobs[job].status == Queued && s.jobs[job].dispatches > 0
    ensures var row := s.jobs[job]; var t := Alone(s, DispatchRead(job, connected));
            if connected && row.printer.Some? then
              && t.jobs == s.jobs[job := row.(dispatches := row.dispatches - 1)]
              && t.payloads == s.payloads + {Payload(job, row.items, row.printer.value, row.attemptCount)}
            else
              && t.payloads == s.payloads
              && t.jobs == s.jobs[job := row.(status := AgentOffline, dispatches := row.dispatches - 1,
                                              events := row.events + [Event(AgentOffline, Dispatch)])]
  {
    hide Alone;
    DispatchAlone(s, job, connected);
  }

  /** An order that left the queue is not dispatched. */
  lemma DispatchSkips(s: State, job: JobId, connected: bool)
    requires Idle(s) && Live(s, job) && s.jobs[job].status != Queued
    ensures var t := Alone(s, DispatchRead(job, connected));
            t.payloads == s.payloads && t.jobs.Keys == s.jobs.Keys && t.jobs[job].status == s.jobs[job].status
            && t.jobs[job].events == s.jobs[job].events
  {
    hide Alone;
    DispatchAlone(s, job, connected);
  }

  /** The polling agent gets exactly the orders that are queued or found it offline. */
  lemma PollSends(s: State, job: JobId)
    requires Live(s, job) && s.jobs[job].printer.Some?
    ensures var row, t := s.jobs[job], Apply(s, Poll(job));
            t == if row.status == Queued || row.status == AgentOffline
                 then s.(payloads := s.payloads + {Payload(job, row.items, row.printer.value, row.attemptCount)}) else s
  {
    hide Alone;
  }

  /** The shopkeeper settles an order in doubt, and only that; a printed one goes on to retention. */
  lemma ReconcileSettles(s: State, job: JobId, printed: bool)
    requires Idle(s)
    ensures Alone(s, ReconcileRead(job, printed)) ==
            if Live(s, job) && s.jobs[job].status == PrintUnknown then
              s.(jobs := s.jobs[job := With(s.jobs[job],
                if printed then [Event(Printed, Shopkeeper), Event(RetentionPending, Retention)]
                else [Event(PrintFailed, Shopkeeper)])])
            else s
  {
    ReconcileAlone(s, job, printed);
    if Live(s, job) {
      MovedTwice(s.jobs[job], Event(Printed, Shopkeeper), Event(RetentionPending, Retention));
    }
  }

  /** An order that prints too long is put in doubt, not failed. */
  lemma StaleIsDoubted(s: State, job: JobId)
    requires Idle(s) && Live(s, job) && s.jobs[job].status == Printing
    ensures Alone(s, StaleRead(job)) == s.(jobs := s.jobs[job := With(s.jobs[job], [Event(PrintUnknown, StaleSweep)])])
  {
    hide Alone;
    StaleAlone(s, job);
  }

  /** A confirmed order waits to be printed, never tried yet, and its documents may be printed again. */
  lemma ConfirmationWaits(s: State, job: JobId, items: seq<Item>)
    requires Idle(s) && job !in s.jobs && items != [] && forall x :: x in items ==> x.doc in s.docs
    ensures var t := Alone(s, Confirm(job, items));
            && t.jobs == s.jobs[job := Job(PrintEligible, items, None, 0, 0,
                 [Event(Created, Confirmation), Event(PrintEligible, Confirmation)], false)]
            && t.docs.Keys == s.docs.Keys && t.storage == s.storage
            && forall doc :: doc in s.docs ==> (t.docs[doc] <==> s.docs[doc] && !Ordered(items, doc))
  {
    NewOrder(items);
    hide Alone, Moved, NewJob;
    ConfirmAlone(s, job, items);
    assert forall k :: 0 <= k < |items| ==> items[k] in items;
    var marked := set k | 0 <= k < |items| :: items[k].doc;
    MarkedIs(items);
    var t := Alone(s, Confirm(job, items));
    assert t.docs == map doc | doc in s.docs :: if doc in marked then false else s.docs[doc];
  }

  lemma NewOrder(items: seq<Item>)
    ensures Moved(NewJob(items), PrintEligible, Confirmation)
         == Job(PrintEligible, items, None, 0, 0, [Event(Created, Confirmation), Event(PrintEligible, Confirmation)], false)
  {
  }

  predicate Ordered(items: seq<Item>, doc: DocId) {
    exists x :: x in items && x.doc == doc
  }

  lemma MarkedIs(items: seq<Item>)
    ensures var marked := set k | 0 <= k < |items| :: items[k].doc; forall doc :: doc in marked <==> Ordered(items, doc)
  {
    var marked := set k | 0 <= k < |items| :: items[k].doc;
    forall doc ensures doc in marked <==> Ordered(items, doc) {
      if doc in marked {
        var k :| 0 <= k < |items| && items[k].doc == doc;
        assert items[k] in items;
      }
      if Ordered(items, doc) {
        var x :| x in items && x.doc == doc;
        var k :| 0 <= k < |items| && items[k] == x;
      }
    }
  }

  /** New options reach one document of an order that still waits, and nothing else. */
  lemma OptionsChange(s: State, job: JobId, k: nat, options: nat)
    ensures var t := Apply(s, EditItem(job, k, options));
            if Live(s, job) && s.jobs[job].status == PrintEligible && k < |s.jobs[job].items| then
              && t.jobs[job].items[k] == s.jobs[job].items[k].(options := options)
              && t.jobs[job].items[..k] == s.jobs[job].items[..k] && t.jobs[job].items[k + 1..] == s.jobs[job].items[k + 1..]
              && t == s.(jobs := s.jobs[job := s.jobs[job].(items := t.jobs[job].items)])
            else t == s
  {
  }

  /** A document leaves an order that still waits unless it is the only one, and may then be ordered again. */
  lemma DocumentLeaves(s: State, job: JobId, k: nat)
    ensures var t := Apply(s, DeleteItem(job, k));
            if Live(s, job) && s.jobs[job].status == PrintEligible && k < |s.jobs[job].items| != 1 then
              && |t.jobs[job].items| == |s.jobs[job].items| - 1
              && t.jobs[job].items[..k] == s.jobs[job].items[..k] && t.jobs[job].items[k..] == s.jobs[job].items[k + 1..]
              && t == s.(jobs := s.jobs[job := s.jobs[job].(items := t.jobs[job].items)],
                         docs := s.docs[s.jobs[job].items[k].doc := false])
            else t == s
  {
  }

  /** A waiting order takes any order of exactly its own documents. */
  lemma DocumentsMove(s: State, job: JobId, order: seq<Item>)
    ensures Apply(s, ReorderItems(job, order)) ==
            if Live(s, job) && s.jobs[job].status == PrintEligible && multiset(order) == multiset(s.jobs[job].items)
            then s.(jobs := s.jobs[job := s.jobs[job].(items := order)]) else s
  {
  }

  /** History keeps every order that is not finished. */
  lemma HistoryClears(s: State, job: JobId)
    requires Live(s, job)
    ensures Apply(s, ClearHistory(job)) ==
            if s.jobs[job].status == Deleted || s.jobs[job].status == Cancelled
            then s.(jobs := s.jobs[job := s.jobs[job].(cleared := true)]) else s
  {
  }
}
