/** What the retention sweep may delete, whatever fails or runs twice: only documents of a printed order. */
module PrintRetention {
  import opened Options
  import opened PrintStates
  import opened PrintProtocol
  import opened PrintLog
  import opened PrintSafety

  predicate HasDoc(items: seq<Item>, doc: DocId) {
    exists x :: x in items && x.doc == doc
  }

  /** A job with the document in it that reached PRINTED at some time. */
  predicate PrintedWith(s: State, job: JobId, doc: DocId) {
    job in s.jobs && HasDoc(s.jobs[job].items, doc) && WasPrinted(s.jobs[job].events)
  }

  /** A sweep's work on a job: what it still has to delete belongs to the job, and unless something failed
      nothing else is left in storage. */
  predicate CleanupOk(s: State, job: JobId, todo: seq<DocId>, failed: bool) {
    && job in s.jobs && WasPrinted(s.jobs[job].events)
    && (forall doc :: doc in todo ==> HasDoc(s.jobs[job].items, doc) && doc in s.docs)
    && (!failed ==> forall x :: x in s.jobs[job].items && x.doc in s.storage ==> x.doc in todo)
  }

  predicate SweepOk(s: State, h: Handler) {
    match h
    case DeleteObjects(job, todo, failed) => CleanupOk(s, job, todo, failed)
    case MarkDeleted(job, doc, todo, failed) =>
      CleanupOk(s, job, todo, failed) && doc in s.docs && doc !in s.storage
    case _ => true
  }

  predicate ItemsKnown(s: State, job: JobId)
    requires job in s.jobs
  {
    forall x :: x in s.jobs[job].items ==> x.doc in s.docs
  }

  predicate Emptied(s: State, job: JobId)
    requires job in s.jobs
  {
    forall x :: x in s.jobs[job].items ==> x.doc !in s.storage
  }

  ghost predicate DocOk(s: State, doc: DocId)
    requires doc in s.docs
  {
    && (s.docs[doc] ==> doc !in s.storage)
    && (doc !in s.storage ==> exists job :: PrintedWith(s, job, doc))
  }

  ghost predicate StoreInv(s: State) {
    && (forall job :: job in s.jobs ==> ItemsKnown(s, job))
    && (forall job :: job in s.jobs && s.jobs[job].status == Deleted ==> Emptied(s, job))
    && (forall doc :: doc in s.docs ==> DocOk(s, doc))
    && (forall h :: h in s.pending ==> SweepOk(s, h))
  }

  // ------------------------------------------------------ what a step does

  /**
   * Documents are never forgotten and objects never come back; a document is marked, or loses its object,
   * only as a sweep of a printed order does it.
   */
  ghost predicate StoreStep(s: State, t: State) {
    && (forall doc :: doc in s.docs ==> doc in t.docs && (doc in t.storage ==> doc in s.storage))
    && (forall doc :: doc in t.docs && doc !in s.docs ==> doc in t.storage && !t.docs[doc])
    && (forall doc :: doc in s.docs && t.docs[doc] ==> s.docs[doc] || doc !in s.storage)
    && (forall doc :: doc in s.docs && doc in s.storage && doc !in t.storage ==> exists job :: PrintedWith(s, job, doc))
  }

  predicate SameStore(s: State, t: State) {
    t.docs == s.docs && t.storage == s.storage
  }

  lemma SameStoreStep(s: State, t: State)
    requires SameStore(s, t)
    ensures StoreStep(s, t)
  {
  }

  lemma EditStore(s: State, step: Step)
    requires StoreInv(s) && (step.EditItem? || step.DeleteItem? || step.ReorderItems?)
    ensures StoreStep(s, EditOrder(s, step))
  {
    if Editable(s, step.job) {
      assert ItemsKnown(s, step.job);
    }
  }

  lemma ConfirmStore(s: State, job: JobId, items: seq<Item>)
    ensures StoreStep(s, ConfirmOrder(s, job, items))
  {
  }

  lemma UploadStore(s: State, doc: DocId)
    ensures StoreStep(s, Apply(s, Upload(doc)))
  {
  }

  lemma MarkStore(s: State, h: Handler, ok: bool)
    requires h.MarkDeleted? && SweepOk(s, h)
    ensures StoreStep(s, Write(s, h, ok))
  {
  }

  lemma DeleteStore(s: State, job: JobId, todo: seq<DocId>, failed: bool, ok: bool)
    requires todo != [] && CleanupOk(s, job, todo, failed)
    ensures StoreStep(s, DeleteNext(s, job, todo, failed, ok))
  {
    assert PrintedWith(s, job, todo[0]);
  }

  lemma WriteStore(s: State, h: Handler, ok: bool)
    requires SweepOk(s, h)
    ensures StoreStep(s, Write(s, h, ok))
  {
    if h.MarkDeleted? {
      MarkStore(s, h, ok);
    } else if h.DeleteObjects? && h.todo != [] {
      DeleteStore(s, h.job, h.todo, h.failed, ok);
    } else {
      hide StoreStep, Swapped, CasWins, AfterSwap;
      if Wins(s, h) {
        AfterSwapFrame(WithJob(s, h.job, Swapped(s.jobs[h.job], h)), h);
      }
      SameStoreStep(s, Write(s, h, ok));
    }
  }

  lemma ExecStore(s: State, h: Handler, ok: bool)
    requires h in s.pending && StoreInv(s)
    ensures StoreStep(s, Write(Remove(s, h), h, ok))
  {
    assert SweepOk(s, h);
    hide Write, StoreInv;
    var r := Remove(s, h);
    SweepFrame(s, r, h);
    WriteStore(r, h, ok);
    assert forall job, doc :: PrintedWith(r, job, doc) ==> PrintedWith(s, job, doc);
  }

  lemma SweepFrame(s: State, t: State, h: Handler)
    requires SweepOk(s, h) && t.jobs == s.jobs && SameStore(s, t)
    ensures SweepOk(t, h)
  {
  }

  lemma DispatchStore(s: State, job: JobId, connected: bool)
    ensures SameStore(s, DispatchAttempt(s, job, connected))
  {
  }

  lemma DeliverStore(s: State, r: Report)
    ensures SameStore(s, DeliverReport(s, r))
  {
  }

  lemma AgentStore(s: State, run: RunId, outcome: Outcome)
    ensures SameStore(s, AgentStep(s, run, outcome))
  {
    hide AgentMove;
  }

  lemma ReadStore(s: State, step: Step)
    requires IsRead(step)
    ensures SameStore(s, Apply(s, step))
  {
    hide Begun;
  }

  lemma PollStore(s: State, job: JobId)
    ensures SameStore(s, PollJob(s, job))
  {
    hide PayloadOf, Live;
  }

  lemma MoveStore(s: State, run: RunId, move: Move)
    ensures SameStore(s, AfterMove(s, run, move))
  {
  }

  lemma RowStore(s: State, job: JobId, row: Job)
    ensures SameStore(s, WithJob(s, job, row))
  {
  }

  lemma RemoveStore(s: State, h: Handler)
    ensures SameStore(s, Remove(s, h))
  {
  }

  lemma RestStore(s: State, step: Step)
    requires step.Poll? || step.StartRun? || step.ClearHistory? || step.Drop?
    ensures SameStore(s, Apply(s, step))
  {
    hide SameStore, AfterMove, WithJob, Remove, PollJob;
    match step
    case Poll(job) => PollStore(s, job);
    case StartRun(run, payload) =>
      MoveStore(s, run, Move(Run(payload, Accepting, 0), Some(ReportAccepted)));
      NothingStored(s);
    case ClearHistory(job) =>
      if Live(s, job) { RowStore(s, job, s.jobs[job].(cleared := true)); }
      NothingStored(s);
    case Drop(h) => RemoveStore(s, h);
  }

  lemma NothingStored(s: State)
    ensures SameStore(s, s)
  {
  }

  lemma StepStore(s: State, step: Step)
    requires StoreInv(s)
    ensures StoreStep(s, Apply(s, step))
  {
    hide EditOrder, ConfirmOrder, DeliverReport, Write, DispatchAttempt, AgentStep, Begun, StoreInv, StoreStep;
    match step
    case Exec(h, ok) => if h in s.pending { ExecStore(s, h, ok); } else { SameStoreStep(s, s); }
    case EditItem(_, _, _) => EditStore(s, step);
    case DeleteItem(_, _) => EditStore(s, step);
    case ReorderItems(_, _) => EditStore(s, step);
    case Confirm(job, items) => ConfirmStore(s, job, items);
    case Upload(doc) => UploadStore(s, doc);
    case DispatchRead(job, connected) =>
      DispatchStore(s, job, connected);
      SameStoreStep(s, DispatchAttempt(s, job, connected));
    case Deliver(r) =>
      DeliverStore(s, r);
      SameStoreStep(s, DeliverReport(s, r));
    case RunStep(run, outcome) =>
      AgentStore(s, run, outcome);
      SameStoreStep(s, AgentStep(s, run, outcome));
    case _ =>
      if IsRead(step) { ReadStore(s, step); } else { RestStore(s, step); }
      SameStoreStep(s, Apply(s, step));
  }

  // ------------------------------------------------------ what persists

  lemma EventsGrow(s: State, step: Step, job: JobId)
    requires job in s.jobs && job in Apply(s, step).jobs
    ensures s.jobs[job].events <= Apply(s, step).jobs[job].events
  {
    hide Write;
    if step.Exec? {
      if step.handler in s.pending {
        WriteGrows(Remove(s, step.handler), step.handler, step.ok, job);
      }
    } else {
      hide Apply;
      NewEvents(s, step, job);
    }
  }

  lemma WriteGrows(s: State, h: Handler, ok: bool, job: JobId)
    requires job in s.jobs
    ensures job in Write(s, h, ok).jobs && s.jobs[job].events <= Write(s, h, ok).jobs[job].events
  {
    hide Write, CasWins;
    WriteShape(s, h, ok);
  }

  lemma PrintedStays(s: State, step: Step, job: JobId)
    requires job in s.jobs && WasPrinted(s.jobs[job].events) && job in Apply(s, step).jobs
    ensures WasPrinted(Apply(s, step).jobs[job].events)
  {
    hide Apply;
    EventsGrow(s, step, job);
    var k :| 0 <= k < |s.jobs[job].events| && s.jobs[job].events[k].status == Printed;
    assert Apply(s, step).jobs[job].events[k].status == Printed;
  }

  lemma PrintedWasPressed(s: State, job: JobId)
    requires LogInv(s) && job in s.jobs && WasPrinted(s.jobs[job].events)
    ensures s.jobs[job].attemptCount > 0
  {
    var k :| 0 <= k < |s.jobs[job].events| && s.jobs[job].events[k].status == Printed;
    PrintedIsFrozen(s, job, k);
  }

  lemma PrintedWithStays(s: State, step: Step, job: JobId, doc: DocId)
    requires LogInv(s) && PrintedWith(s, job, doc) && Evolves(s, Apply(s, step))
    ensures PrintedWith(Apply(s, step), job, doc)
  {
    hide Apply, WasPrinted, LogInv;
    PrintedWasPressed(s, job);
    PrintedStays(s, step, job);
  }

  lemma CleanupStays(s: State, step: Step, job: JobId, todo: seq<DocId>, failed: bool)
    requires LogInv(s) && CleanupOk(s, job, todo, failed) && (!failed ==> ItemsKnown(s, job))
    requires Evolves(s, Apply(s, step)) && StoreStep(s, Apply(s, step))
    ensures CleanupOk(Apply(s, step), job, todo, failed)
  {
    hide Apply, WasPrinted, LogInv;
    PrintedWasPressed(s, job);
    PrintedStays(s, step, job);
  }

  lemma SweepStays(s: State, step: Step, h: Handler)
    requires LogInv(s) && StoreInv(s) && SweepOk(s, h)
    requires Evolves(s, Apply(s, step)) && StoreStep(s, Apply(s, step))
    ensures SweepOk(Apply(s, step), h)
  {
    hide Apply, CleanupOk, LogInv, Evolves;
    match h
    case DeleteObjects(job, todo, failed) =>
      KnownOf(s, job, todo, failed);
      CleanupStays(s, step, job, todo, failed);
    case MarkDeleted(job, _, todo, failed) =>
      KnownOf(s, job, todo, failed);
      CleanupStays(s, step, job, todo, failed);
    case _ =>
  }

  lemma KnownOf(s: State, job: JobId, todo: seq<DocId>, failed: bool)
    requires StoreInv(s) && CleanupOk(s, job, todo, failed)
    ensures ItemsKnown(s, job)
  {
  }

  // ----------------------------------------------------------- sweeps

  /** What a sweep leaves to delete: every document of the job that is not marked. */
  lemma {:induction false} PendingDocsAre(s: State, items: seq<Item>, doc: DocId)
    ensures doc in PendingDocs(s.docs, items) <==> HasDoc(items, doc) && (doc in s.docs ==> !s.docs[doc])
  {
    if items != [] {
      PendingDocsAre(s, items[1..], doc);
      assert forall x :: x in items <==> x == items[0] || x in items[1..];
      assert HasDoc(items, doc) <==> items[0].doc == doc || HasDoc(items[1..], doc);
    }
  }

  lemma SweepBegins(s: State, job: JobId)
    requires LogInv(s) && StoreInv(s) && job in s.jobs && s.jobs[job].status == RetentionPending
    ensures CleanupOk(s, job, PendingDocs(s.docs, s.jobs[job].items), false)
  {
    var row := s.jobs[job];
    assert JobOk(s, job) && ItemsKnown(s, job);
    FinishedWasPrinted(row.events);
    forall doc: DocId
      ensures doc in PendingDocs(s.docs, row.items) <==> HasDoc(row.items, doc) && (doc in s.docs ==> !s.docs[doc])
    {
      PendingDocsAre(s, row.items, doc);
    }
    forall x | x in row.items && x.doc in s.storage ensures x.doc in PendingDocs(s.docs, row.items) {
      assert DocOk(s, x.doc);
      assert HasDoc(row.items, x.doc);
    }
  }

  lemma ReadSweepOk(s: State, step: Step, h: Handler)
    requires LogInv(s) && StoreInv(s) && IsRead(step) && Begun(s, step) == Some(h)
    ensures SweepOk(s, h)
  {
    hide CleanupOk, PendingDocs, LogInv, StoreInv;
    if step.SweepRead? {
      SweepBegins(s, step.job);
    }
  }

  /** A sweep goes on with the rest; an object is gone before its document is marked. */
  lemma WriteSweepOk(s: State, g: Handler, ok: bool, h: Handler)
    requires g in s.pending && SweepOk(s, g) && h !in s.pending && h in Write(Remove(s, g), g, ok).pending
    ensures || SweepOk(s, h)
            || (g.DeleteObjects? && ok && g.todo != [] && h == MarkDeleted(g.job, g.todo[0], g.todo[1..], g.failed))
  {
    hide Swapped, CasWins;
    if g.DeleteObjects? && g.todo != [] && !ok {
      assert h == DeleteObjects(g.job, g.todo[1..], true);
    }
  }

  lemma MarkSweepOk(s: State, job: JobId, todo: seq<DocId>, failed: bool)
    requires todo != [] && CleanupOk(s, job, todo, failed)
    ensures SweepOk(DeleteNext(s, job, todo, failed, true), MarkDeleted(job, todo[0], todo[1..], failed))
  {
    var t := DeleteNext(s, job, todo, failed, true);
    assert todo == [todo[0]] + todo[1..];
    assert CleanupOk(t, job, todo[1..], failed);
  }

  /** Only a sweep's read or its own last write starts more deleting. */
  lemma SweepOrigin(s: State, step: Step, h: Handler)
    requires h in Apply(s, step).pending && h !in s.pending && (h.DeleteObjects? || h.MarkDeleted?)
    ensures (IsRead(step) && Begun(s, step) == Some(h)) || (step.Exec? && step.handler in s.pending)
  {
    hide EditOrder, ConfirmOrder, AgentStep, Begun, Write, DeliverReport;
    match step
    case EditItem(_, _, _) => EditEffects(s, step);
    case DeleteItem(_, _) => EditEffects(s, step);
    case ReorderItems(_, _) => EditEffects(s, step);
    case RunStep(run, outcome) => AgentEffects(s, run, outcome);
    case Deliver(r) => DeliverSweeps(s, r, h);
    case Confirm(job, items) => ConfirmEffects(s, job, items);
    case _ =>
  }

  lemma DeliverSweeps(s: State, r: Report, h: Handler)
    requires h in DeliverReport(s, r).pending && h !in s.pending
    ensures !h.DeleteObjects? && !h.MarkDeleted?
  {
  }

  lemma SweepsKept(s: State, step: Step, h: Handler)
    requires LogInv(s) && StoreInv(s) && h in Apply(s, step).pending
    requires Evolves(s, Apply(s, step)) && StoreStep(s, Apply(s, step))
    ensures SweepOk(Apply(s, step), h)
  {
    hide LogInv, Evolves, StoreStep, CleanupOk, Write, DeleteNext, Begun;
    if h in s.pending {
      hide Apply;
      assert SweepOk(s, h);
      SweepStays(s, step, h);
    } else if h.DeleteObjects? || h.MarkDeleted? {
      SweepOrigin(s, step, h);
      if step.Exec? {
        ExecSweepKept(s, step.handler, step.ok, h);
      } else {
        hide Apply;
        ReadSweepOk(s, step, h);
        SweepStays(s, step, h);
      }
    }
  }

  lemma ExecSweepKept(s: State, g: Handler, ok: bool, h: Handler)
    requires LogInv(s) && StoreInv(s) && g in s.pending && h !in s.pending
    requires var t := Write(Remove(s, g), g, ok); h in t.pending && Evolves(s, t) && StoreStep(s, t)
    ensures SweepOk(Write(Remove(s, g), g, ok), h)
  {
    hide LogInv, Evolves, StoreStep, CleanupOk, DeleteNext, AfterSwap, Swapped;
    assert SweepOk(s, g);
    WriteSweepOk(s, g, ok, h);
    if g.DeleteObjects? && ok && g.todo != [] && h == MarkDeleted(g.job, g.todo[0], g.todo[1..], g.failed) {
      SweepFrame(s, Remove(s, g), g);
      MarkSweepOk(Remove(s, g), g.job, g.todo, g.failed);
    } else {
      hide Write;
      SweepStays(s, Exec(g, ok), h);
    }
  }

  // ------------------------------------------------------------- items

  lemma EditItemsKnown(s: State, step: Step, job: JobId)
    requires (step.EditItem? || step.DeleteItem? || step.ReorderItems?) && job in s.jobs && ItemsKnown(s, job)
    ensures var t := EditOrder(s, step);
            job in t.jobs && t.jobs[job].status == s.jobs[job].status
            && forall x :: x in t.jobs[job].items ==> x.doc in s.docs
  {
    var t := EditOrder(s, step);
    forall x | x in t.jobs[job].items ensures x.doc in s.docs {
      if step.ReorderItems? && t.jobs[job].items != s.jobs[job].items {
        assert x in multiset(step.items);
      }
    }
  }

  /** Steps other than edits leave the items of the orders they find. */
  lemma SameItems(s: State, step: Step, job: JobId)
    requires job in s.jobs && !step.EditItem? && !step.DeleteItem? && !step.ReorderItems?
    ensures job in Apply(s, step).jobs && Apply(s, step).jobs[job].items == s.jobs[job].items
  {
    hide ConfirmOrder, AgentStep, Begun, Write, DeliverReport, DispatchAttempt, CasWins;
    match step
    case Exec(h, ok) => WriteShape(Remove(s, h), h, ok);
    case RunStep(run, outcome) => AgentEffects(s, run, outcome);
    case Deliver(r) => DeliverEffects(s, r);
    case Confirm(other, items) => ConfirmItems(s, other, items, job);
    case DispatchRead(other, connected) => DispatchItems(s, other, connected, job);
    case _ =>
  }

  lemma ConfirmItems(s: State, other: JobId, items: seq<Item>, job: JobId)
    requires job in s.jobs
    ensures var t := ConfirmOrder(s, other, items); job in t.jobs && t.jobs[job] == s.jobs[job]
  {
  }

  lemma DispatchItems(s: State, other: JobId, connected: bool, job: JobId)
    requires job in s.jobs
    ensures var t := DispatchAttempt(s, other, connected);
            job in t.jobs && t.jobs[job].items == s.jobs[job].items && t.jobs[job].status == s.jobs[job].status
  {
  }

  lemma NewOrderItems(s: State, step: Step, job: JobId)
    requires job in Apply(s, step).jobs && job !in s.jobs
    ensures Apply(s, step).jobs[job].status == Created
    ensures forall x :: x in Apply(s, step).jobs[job].items ==> x.doc in s.docs
  {
    if step.Confirm? {
      ConfirmedItems(s, step.job, step.items, job);
    } else if step.Exec? {
      hide Write;
      WriteShape(Remove(s, step.handler), step.handler, step.ok);
    } else if step.DispatchRead? {
      hide Apply;
      SameJobs(s, step);
    } else {
      hide Apply;
      QuietRows(s, step);
    }
  }

  lemma SameJobs(s: State, step: Step)
    requires step.DispatchRead?
    ensures Apply(s, step).jobs.Keys == s.jobs.Keys
  {
    hide PayloadOf;
  }

  lemma ConfirmedItems(s: State, confirmed: JobId, items: seq<Item>, job: JobId)
    requires job in ConfirmOrder(s, confirmed, items).jobs && job !in s.jobs
    ensures var row := ConfirmOrder(s, confirmed, items).jobs[job];
            row.status == Created && forall x :: x in row.items ==> x.doc in s.docs
  {
  }

  lemma ItemsKept(s: State, step: Step, job: JobId)
    requires StoreInv(s) && job in Apply(s, step).jobs && StoreStep(s, Apply(s, step))
    ensures ItemsKnown(Apply(s, step), job)
  {
    hide EditOrder, ConfirmOrder, AgentStep, Begun, Write, DeliverReport, DispatchAttempt;
    if job !in s.jobs {
      NewOrderItems(s, step, job);
    } else {
      assert ItemsKnown(s, job);
      if step.EditItem? || step.DeleteItem? || step.ReorderItems? {
        EditItemsKnown(s, step, job);
      } else {
        SameItems(s, step, job);
      }
    }
    hide Apply;
  }

  // ----------------------------------------------------------- deletion

  /** A job becomes DELETED only as a sweep that failed nothing ends. */
  lemma NewlyDeleted(s: State, step: Step, job: JobId)
    requires job in Apply(s, step).jobs && Apply(s, step).jobs[job].status == Deleted
    requires job in s.jobs ==> s.jobs[job].status != Deleted
    ensures job in s.jobs && step.Exec? && step.handler in s.pending && step.handler == DeleteObjects(job, [], false)
  {
    if step.Exec? {
      ExecDeletes(s, step.handler, step.ok, job);
    } else {
      hide Apply;
      if job !in s.jobs {
        NewOrderItems(s, step, job);
      } else {
        SameStatus(s, step, job);
      }
    }
  }

  lemma ExecDeletes(s: State, h: Handler, ok: bool, job: JobId)
    requires job in Apply(s, Exec(h, ok)).jobs && Apply(s, Exec(h, ok)).jobs[job].status == Deleted
    requires job in s.jobs ==> s.jobs[job].status != Deleted
    ensures job in s.jobs && h in s.pending && h == DeleteObjects(job, [], false)
  {
    hide Write;
    if job !in s.jobs {
      NewOrderItems(s, Exec(h, ok), job);
    } else {
      DeletingWrite(Remove(s, h), h, ok, job);
    }
  }

  lemma SameStatus(s: State, step: Step, job: JobId)
    requires job in s.jobs && !step.Exec?
    ensures job in Apply(s, step).jobs && Apply(s, step).jobs[job].status == s.jobs[job].status
  {
    if !step.Confirm? && !step.DispatchRead? {
      hide Apply;
      QuietRows(s, step);
      assert SameLog(s.jobs[job], Apply(s, step).jobs[job]);
    }
  }

  lemma DeletingWrite(s: State, h: Handler, ok: bool, job: JobId)
    requires job in s.jobs && s.jobs[job].status != Deleted && Write(s, h, ok).jobs[job].status == Deleted
    ensures h == DeleteObjects(job, [], false)
  {
    hide CasWins, AfterSwap;
    if Wins(s, h) {
      AfterSwapFrame(WithJob(s, h.job, Swapped(s.jobs[h.job], h)), h);
    }
  }

  lemma EmptiedKept(s: State, step: Step, job: JobId)
    requires LogInv(s) && StoreInv(s) && Evolves(s, Apply(s, step)) && StoreStep(s, Apply(s, step))
    requires job in Apply(s, step).jobs && Apply(s, step).jobs[job].status == Deleted
    ensures Emptied(Apply(s, step), job)
  {
    hide Apply;
    if job !in s.jobs || s.jobs[job].status != Deleted {
      NewlyDeleted(s, step, job);
      assert SweepOk(s, step.handler);
      assert forall x :: x in s.jobs[job].items ==> x.doc !in s.storage;
      assert WasPrinted(s.jobs[job].events);
      hide WasPrinted;
      PrintedWasPressed(s, job);
    } else {
      assert Emptied(s, job);
      QueuedWasPressed(s, job);
    }
    assert ItemsKnown(s, job);
  }

  lemma DocKept(s: State, step: Step, doc: DocId)
    requires LogInv(s) && StoreInv(s) && Evolves(s, Apply(s, step)) && StoreStep(s, Apply(s, step))
    requires doc in Apply(s, step).docs
    ensures DocOk(Apply(s, step), doc)
  {
    hide Apply, LogInv, Evolves, PrintedWith;
    var t := Apply(s, step);
    if doc in s.docs {
      assert DocOk(s, doc);
      if doc !in t.storage {
        var job :| PrintedWith(s, job, doc);
        PrintedWithStays(s, step, job, doc);
      }
    }
  }

  lemma StepKeepsStore(s: State, step: Step)
    requires SafeInv(s) && StoreInv(s)
    ensures SafeInv(Apply(s, step)) && StoreInv(Apply(s, step))
  {
    StepKeepsSafe(s, step);
    StepStore(s, step);
    hide Apply, Evolves, StoreStep, LogInv, PayloadsOk, RunsOk, ReportsOk, HandlersOk, PrintsVouched;
    var t := Apply(s, step);
    forall job | job in t.jobs ensures ItemsKnown(t, job) { ItemsKept(s, step, job); }
    forall job | job in t.jobs && t.jobs[job].status == Deleted ensures Emptied(t, job) { EmptiedKept(s, step, job); }
    forall doc | doc in t.docs ensures DocOk(t, doc) { DocKept(s, step, doc); }
    forall h | h in t.pending ensures SweepOk(t, h) { SweepsKept(s, step, h); }
  }

  lemma {:induction false} ExecutionKeepsStore(s: State, steps: seq<Step>)
    requires SafeInv(s) && StoreInv(s)
    ensures SafeInv(Execute(s, steps)) && StoreInv(Execute(s, steps))
    decreases |steps|
  {
    hide SafeInv, StoreInv, Apply;
    if steps != [] {
      StepKeepsStore(s, steps[0]);
      ExecutionKeepsStore(Apply(s, steps[0]), steps[1..]);
    }
  }

  /**
   * In every reachable state, whatever deletes failed: an uploaded object is missing only if an order with it was
   * PRINTED, a document marked deleted has no object, and a DELETED order has no object left.
   */
  lemma RetentionIsSafe(steps: seq<Step>)
    ensures var s := Execute(Initial, steps);
            && (forall doc :: doc in s.docs && doc !in s.storage ==> exists job :: PrintedWith(s, job, doc))
            && (forall doc :: doc in s.docs && s.docs[doc] ==> doc !in s.storage)
            && (forall job, x :: job in s.jobs && s.jobs[job].status == Deleted && x in s.jobs[job].items ==>
                  x.doc in s.docs && x.doc !in s.storage)
  {
    hide Execute, PrintedWith;
    var s := Execute(Initial, steps);
    ExecutionKeepsStore(Initial, steps);
    forall doc | doc in s.docs
      ensures (s.docs[doc] ==> doc !in s.storage) && (doc !in s.storage ==> exists job :: PrintedWith(s, job, doc))
    {
      assert DocOk(s, doc);
    }
    forall job, x | job in s.jobs && s.jobs[job].status == Deleted && x in s.jobs[job].items
      ensures x.doc in s.docs && x.doc !in s.storage
    {
      assert ItemsKnown(s, job) && Emptied(s, job);
    }
  }
}
