/** What an agent's job processor does with one payload, as a function of how everything around it turns out. */
module AgentRun {
  import opened Options
  import opened PrintProtocol

  /** The spooler took the document, refused it, or gave no clear answer. */
  datatype Spooling = Taken | Refused | Unclear

  /** Everything one run observes from the processor: reports made and documents fetched and submitted. */
  datatype Action =
    | Reported(kind: ReportKind, ok: bool)
    | ChosePrinter(ok: bool)
    | Downloaded(doc: nat, ok: bool)
    | Submitted(doc: nat, attempt: nat, outcome: Spooling)

  /** How things turn out: the n-th report, finding the printer, each download, each attempt to print. */
  datatype World = World(
    reports: nat -> bool,
    printerFound: bool,
    downloads: nat -> bool,
    spooler: (nat, nat) -> Spooling)

  const PRINT_RETRY_ATTEMPTS := 2
  const FINAL_REPORT_TRIES := 3

  // ------------------------------------------------------ one document

  function Tries(w: World, doc: nat, attempt: nat): seq<Action>
    requires 1 <= attempt <= PRINT_RETRY_ATTEMPTS
    decreases PRINT_RETRY_ATTEMPTS - attempt
  {
    var outcome := w.spooler(doc, attempt);
    [Submitted(doc, attempt, outcome)] +
    if outcome.Refused? && attempt < PRINT_RETRY_ATTEMPTS then Tries(w, doc, attempt + 1) else []
  }

  function LastTry(w: World, doc: nat, attempt: nat): Spooling
    requires 1 <= attempt <= PRINT_RETRY_ATTEMPTS
    decreases PRINT_RETRY_ATTEMPTS - attempt
  {
    var outcome := w.spooler(doc, attempt);
    if outcome.Refused? && attempt < PRINT_RETRY_ATTEMPTS then LastTry(w, doc, attempt + 1) else outcome
  }

  function DocActions(w: World, doc: nat): seq<Action> {
    [Downloaded(doc, w.downloads(doc))] + if w.downloads(doc) then Tries(w, doc, 1) else []
  }

  /** A document that cannot be downloaded counts as refused. */
  function DocResult(w: World, doc: nat): Spooling {
    if w.downloads(doc) then LastTry(w, doc, 1) else Refused
  }

  // ------------------------------------------------------- the whole run

  /** Documents from `doc` on, up to the first that is not taken. */
  function DocsActions(w: World, doc: nat, count: nat): seq<Action>
    decreases count - doc
  {
    if doc >= count then []
    else DocActions(w, doc) + if DocResult(w, doc).Taken? then DocsActions(w, doc + 1, count) else []
  }

  /** The first document from `doc` on that is not taken, or the number of documents. */
  function StopsAt(w: World, doc: nat, count: nat): (stop: nat)
    requires doc <= count
    ensures doc <= stop <= count && (stop < count ==> !DocResult(w, stop).Taken?)
    decreases count - doc
  {
    if doc == count || !DocResult(w, doc).Taken? then doc else StopsAt(w, doc + 1, count)
  }

  /** The final report, tried again until one gets through. */
  function Retries(w: World, kind: ReportKind, made: nat, left: nat): seq<Action>
    decreases left
  {
    if left == 0 then []
    else [Reported(kind, w.reports(made))] + if w.reports(made) then [] else Retries(w, kind, made + 1, left - 1)
  }

  /** How the attempt ended: which final report is due, and the document it stopped at, if any. */
  datatype Ending = Printed | ReportLost | Failed(kind: ReportKind, doc: Option<nat>)

  /** Reports made before the documents, when everything before them went well. */
  function Opening(w: World): seq<Action> {
    if !w.reports(0) then [Reported(ReportAccepted, false)]
    else if !w.printerFound then [Reported(ReportAccepted, true), ChosePrinter(false)]
    else [Reported(ReportAccepted, true), ChosePrinter(true), Reported(ReportPrinting, w.reports(1))]
  }

  predicate Opens(w: World) {
    w.reports(0) && w.printerFound && w.reports(1)
  }

  function Attempt(w: World, count: nat): seq<Action> {
    if !Opens(w) then Opening(w)
    else
      Opening(w) + DocsActions(w, 0, count) +
      if StopsAt(w, 0, count) == count then [Reported(ReportPrinted, w.reports(2))] else []
  }

  function AttemptEnding(w: World, count: nat): Ending {
    if !Opens(w) then Failed(ReportFailed, None)
    else
      var stop := StopsAt(w, 0, count);
      if stop == count then if w.reports(2) then Printed else ReportLost
      else Failed(if DocResult(w, stop).Unclear? then ReportUnknown else ReportFailed, Some(stop))
  }

  /** Reports made during the attempt. */
  function ReportsMade(w: World, count: nat): nat {
    if !w.reports(0) || !w.printerFound then 1
    else if w.reports(1) && StopsAt(w, 0, count) == count then 3
    else 2
  }

  function Handled(w: World, count: nat): seq<Action> {
    Attempt(w, count) +
    match AttemptEnding(w, count)
    case Printed => []
    case ReportLost => Retries(w, ReportPrinted, 3, FINAL_REPORT_TRIES)
    case Failed(kind, _) => Retries(w, kind, ReportsMade(w, count), FINAL_REPORT_TRIES)
  }

  /** The number of documents the failure message says were already sent to the printer; no message, no number. */
  function AlreadySent(w: World, count: nat): Option<nat> {
    match AttemptEnding(w, count)
    case Failed(_, Some(doc)) => if count > 1 then Some(doc) else None
    case _ => None
  }

  lemma Rejoin(a: seq<Action>, b: seq<Action>, c: seq<Action>)
    ensures a + (b + c) == (a + b) + c
  {
  }

  lemma RetriesStep(w: World, kind: ReportKind, made: nat, left: nat, done: seq<Action>)
    ensures done + Retries(w, kind, made, left) ==
            if left == 0 then done
            else if w.reports(made) then done + [Reported(kind, true)]
            else (done + [Reported(kind, false)]) + Retries(w, kind, made + 1, left - 1)
  {
    if left > 0 && !w.reports(made) {
      Rejoin(done, [Reported(kind, false)], Retries(w, kind, made + 1, left - 1));
    }
  }

  // ------------------------------------------------------- the processor

  /** The agent's processor: the jobs it is working on, and everything it did. */
  class JobProcessor {
    var inProgress: set<JobId>
    var log: seq<Action>

    constructor ()
      ensures inProgress == {} && log == []
    {
      inProgress, log := {}, [];
    }

    method PrintWithRetry(w: World, doc: nat) returns (outcome: Spooling)
      modifies this`log
      ensures log == old(log) + Tries(w, doc, 1) && outcome == LastTry(w, doc, 1)
    {
      outcome := Refused;
      var attempt := 1;
      ghost var done := [];
      while attempt <= PRINT_RETRY_ATTEMPTS
        invariant 1 <= attempt <= PRINT_RETRY_ATTEMPTS + 1
        invariant log == old(log) + done
        invariant if attempt <= PRINT_RETRY_ATTEMPTS
          then done + Tries(w, doc, attempt) == Tries(w, doc, 1) && LastTry(w, doc, attempt) == LastTry(w, doc, 1)
          else done == Tries(w, doc, 1) && outcome == LastTry(w, doc, 1)
      {
        outcome := w.spooler(doc, attempt);
        var action := Submitted(doc, attempt, outcome);
        log := log + [action];
        Rejoin(old(log), done, [action]);
        if outcome.Refused? && attempt < PRINT_RETRY_ATTEMPTS {
          Rejoin(done, [action], Tries(w, doc, attempt + 1));
        }
        done := done + [action];
        if !outcome.Refused? {
          return;
        }
        attempt := attempt + 1;
      }
    }

    method Report(w: World, kind: ReportKind, n: nat) returns (ok: bool)
      modifies this`log
      ensures ok == w.reports(n) && log == old(log) + [Reported(kind, ok)]
    {
      ok := w.reports(n);
      log := log + [Reported(kind, ok)];
    }

    method ReportWithRetry(w: World, kind: ReportKind, made: nat)
      modifies this`log
      ensures log == old(log) + Retries(w, kind, made, FINAL_REPORT_TRIES)
    {
      hide Retries;
      var i := 0;
      ghost var done := [];
      assert log + [] == log;
      while i < FINAL_REPORT_TRIES
        invariant 0 <= i <= FINAL_REPORT_TRIES
        invariant log == old(log) + done
        invariant done + Retries(w, kind, made + i, FINAL_REPORT_TRIES - i) == Retries(w, kind, made, FINAL_REPORT_TRIES)
      {
        var ok := Report(w, kind, made + i);
        RetriesStep(w, kind, made + i, FINAL_REPORT_TRIES - i, done);
        Rejoin(old(log), done, [Reported(kind, ok)]);
        done := done + [Reported(kind, ok)];
        if ok {
          return;
        }
        i := i + 1;
      }
      RetriesStep(w, kind, made + i, 0, done);
    }

    /** The documents in order; the first one that is not taken ends the attempt. */
    method PrintDocuments(w: World, count: nat) returns (stop: nat, outcome: Spooling)
      modifies this`log
      ensures log == old(log) + DocsActions(w, 0, count)
      ensures stop == StopsAt(w, 0, count) && (stop < count ==> outcome == DocResult(w, stop))
    {
      hide DocActions, DocResult;
      stop, outcome := 0, Taken;
      ghost var done := [];
      while stop < count
        invariant 0 <= stop <= count
        invariant log == old(log) + done && done + DocsActions(w, stop, count) == DocsActions(w, 0, count)
        invariant StopsAt(w, stop, count) == StopsAt(w, 0, count)
      {
        outcome := PrintDocument(w, stop);
        ghost var rest := if outcome.Taken? then DocsActions(w, stop + 1, count) else [];
        Rejoin(old(log), done, DocActions(w, stop));
        Rejoin(done, DocActions(w, stop), rest);
        done := done + DocActions(w, stop);
        if !outcome.Taken? {
          return;
        }
        stop := stop + 1;
      }
    }

    method PrintDocument(w: World, doc: nat) returns (outcome: Spooling)
      modifies this`log
      ensures log == old(log) + DocActions(w, doc) && outcome == DocResult(w, doc)
    {
      var downloaded := w.downloads(doc);
      log := log + [Downloaded(doc, downloaded)];
      outcome := Refused;
      if downloaded {
        outcome := PrintWithRetry(w, doc);
        Rejoin(old(log), [Downloaded(doc, downloaded)], Tries(w, doc, 1));
      }
    }

    /** ACCEPTED, the printer, and PRINTING, before any document is touched. */
    method Begin(w: World) returns (ok: bool, made: nat)
      modifies this`log
      ensures log == old(log) + Opening(w) && ok == Opens(w)
      ensures made == if w.reports(0) && w.printerFound then 2 else 1
    {
      ok := Report(w, ReportAccepted, 0);
      if !ok {
        return false, 1;
      }
      log := log + [ChosePrinter(w.printerFound)];
      if !w.printerFound {
        return false, 1;
      }
      ok := Report(w, ReportPrinting, 1);
      return ok, 2;
    }

    /** The part of handling a job that may fail, with how it ended. */
    method Try(w: World, count: nat) returns (ending: Ending, made: nat)
      modifies this`log
      ensures log == old(log) + Attempt(w, count)
      ensures ending == AttemptEnding(w, count) && made == ReportsMade(w, count)
    {
      hide Opening, DocsActions, StopsAt;
      var ok, reports := Begin(w);
      made := reports;
      if !ok {
        return Failed(ReportFailed, None), made;
      }
      var stop, outcome := PrintDocuments(w, count);
      Rejoin(old(log), Opening(w), DocsActions(w, 0, count));
      if stop < count {
        return Failed(if outcome.Unclear? then ReportUnknown else ReportFailed, Some(stop)), made;
      }
      ok := Report(w, ReportPrinted, 2);
      Rejoin(old(log), Opening(w) + DocsActions(w, 0, count), [Reported(ReportPrinted, ok)]);
      return if ok then Printed else ReportLost, 3;
    }

    /** Handles one pushed or polled job; a job already in progress is left alone. */
    method Handle(job: JobId, w: World, count: nat) returns (alreadySent: Option<nat>)
      modifies this
      ensures inProgress == old(inProgress)
      ensures log == old(log) + (if job in old(inProgress) then [] else Handled(w, count))
      ensures alreadySent == if job in old(inProgress) then None else AlreadySent(w, count)
    {
      hide Attempt, Retries, AttemptEnding, ReportsMade;
      alreadySent := None;
      if job in inProgress {
        return;
      }
      inProgress := inProgress + {job};
      var ending, made := Try(w, count);
      if ending.ReportLost? {
        ReportWithRetry(w, ReportPrinted, 3);
        Rejoin(old(log), Attempt(w, count), Retries(w, ReportPrinted, 3, FINAL_REPORT_TRIES));
      } else if ending.Failed? {
        if ending.doc.Some? && count > 1 {
          alreadySent := Some(ending.doc.value);
        }
        ReportWithRetry(w, ending.kind, made);
        Rejoin(old(log), Attempt(w, count), Retries(w, ending.kind, made, FINAL_REPORT_TRIES));
      }
      inProgress := inProgress - {job};
    }
  }
}
