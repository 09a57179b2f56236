/** What an agent run guarantees, for every way things can turn out, and that it is a run of the protocol. */
module AgentExact {
  import opened Options
  import opened PrintProtocol
  import opened AgentRun

  // ------------------------------------------------- reading a run's log

  function TakenIn(a: Action): seq<nat> {
    if a.Submitted? && a.outcome.Taken? then [a.doc] else []
  }

  /** The documents the spooler took, in the order it took them. */
  function TakenDocs(run: seq<Action>): seq<nat> {
    if run == [] then [] else TakenIn(run[0]) + TakenDocs(run[1..])
  }

  function Submissions(run: seq<Action>, doc: nat): nat {
    if run == [] then 0
    else (if run[0].Submitted? && run[0].doc == doc then 1 else 0) + Submissions(run[1..], doc)
  }

  /** After a document was taken only later ones are submitted, and after an unclear answer none. */
  predicate Careful(run: seq<Action>) {
    forall i, j :: 0 <= i < j < |run| && run[i].Submitted? && run[j].Submitted? && !run[i].outcome.Refused? ==>
      run[i].outcome.Taken? && run[i].doc < run[j].doc
  }

  /** Documents are submitted in order, from `low` on and before `high`. */
  predicate Within(run: seq<Action>, low: nat, high: nat) {
    forall i :: 0 <= i < |run| && run[i].Submitted? ==> low <= run[i].doc < high
  }

  predicate Reports(run: seq<Action>, kind: ReportKind) {
    Reported(kind, true) in run || Reported(kind, false) in run
  }

  predicate SomeUnclear(run: seq<Action>) {
    exists i :: 0 <= i < |run| && run[i].Submitted? && run[i].outcome.Unclear?
  }

  predicate NoReports(run: seq<Action>) {
    forall i :: 0 <= i < |run| ==> !run[i].Reported?
  }

  predicate NoSubmissions(run: seq<Action>) {
    forall i :: 0 <= i < |run| ==> !run[i].Submitted?
  }

  function Range(low: nat, high: nat): (r: seq<nat>)
    requires low <= high
  {
    seq(high - low, i requires 0 <= i => low + i)
  }

  lemma {:induction false} TakenJoins(a: seq<Action>, b: seq<Action>)
    ensures TakenDocs(a + b) == TakenDocs(a) + TakenDocs(b)
  {
    hide TakenIn;
    if a == [] {
      assert a + b == b;
    } else {
      TakenJoins(a[1..], b);
      assert (a + b)[1..] == a[1..] + b;
      Concat(TakenIn(a[0]), TakenDocs(a[1..]), TakenDocs(b));
    }
  }

  lemma Concat(a: seq<nat>, b: seq<nat>, c: seq<nat>)
    ensures a + (b + c) == (a + b) + c
  {
  }

  lemma {:induction false} SubmissionsJoin(a: seq<Action>, b: seq<Action>, doc: nat)
    ensures Submissions(a + b, doc) == Submissions(a, doc) + Submissions(b, doc)
  {
    if a == [] {
      assert a + b == b;
    } else {
      SubmissionsJoin(a[1..], b, doc);
      assert (a + b)[1..] == a[1..] + b;
    }
  }

  lemma {:induction false} NothingSubmitted(run: seq<Action>, doc: nat)
    requires NoSubmissions(run)
    ensures TakenDocs(run) == [] && Submissions(run, doc) == 0
  {
    if run != [] {
      NothingSubmitted(run[1..], doc);
    }
  }

  lemma {:induction false} NotSubmitted(run: seq<Action>, low: nat, high: nat, doc: nat)
    requires Within(run, low, high) && !(low <= doc < high)
    ensures Submissions(run, doc) == 0
  {
    if run != [] {
      NotSubmitted(run[1..], low, high, doc);
    }
  }

  lemma CarefulJoin(a: seq<Action>, b: seq<Action>, mid: nat)
    requires Careful(a) && Careful(b) && Within(a, 0, mid)
    requires (forall i :: 0 <= i < |b| && b[i].Submitted? ==> b[i].doc >= mid && !SomeUnclear(a))
    ensures Careful(a + b)
  {
  }

  // ------------------------------------------------------ one document

  lemma {:induction false} TriesFacts(w: World, doc: nat, attempt: nat)
    requires 1 <= attempt <= PRINT_RETRY_ATTEMPTS
    ensures var run := Tries(w, doc, attempt);
            && TakenDocs(run) == (if LastTry(w, doc, attempt).Taken? then [doc] else [])
            && Submissions(run, doc) <= PRINT_RETRY_ATTEMPTS + 1 - attempt
            && Careful(run) && Within(run, doc, doc + 1) && NoReports(run)
            && (SomeUnclear(run) <==> LastTry(w, doc, attempt).Unclear?)
    decreases PRINT_RETRY_ATTEMPTS - attempt
  {
    hide TakenDocs, Submissions, Careful, SomeUnclear, Within, NoReports;
    var outcome := w.spooler(doc, attempt);
    if outcome.Refused? && attempt < PRINT_RETRY_ATTEMPTS {
      TriesFacts(w, doc, attempt + 1);
      TriedAgain(doc, attempt, Tries(w, doc, attempt + 1));
    } else {
      OneTry(doc, attempt, outcome);
      assert [Submitted(doc, attempt, outcome)] + [] == [Submitted(doc, attempt, outcome)];
    }
  }

  lemma OneTry(doc: nat, attempt: nat, outcome: Spooling)
    ensures var run := [Submitted(doc, attempt, outcome)];
            && TakenDocs(run) == (if outcome.Taken? then [doc] else []) && Submissions(run, doc) == 1
            && Careful(run) && Within(run, doc, doc + 1) && NoReports(run) && (SomeUnclear(run) <==> outcome.Unclear?)
  {
    assert [Submitted(doc, attempt, outcome)][0].Submitted?;
  }

  /** A refused try adds a submission and nothing else. */
  lemma TriedAgain(doc: nat, attempt: nat, rest: seq<Action>)
    requires Careful(rest) && Within(rest, doc, doc + 1) && NoReports(rest)
    ensures var run := [Submitted(doc, attempt, Refused)] + rest;
            && TakenDocs(run) == TakenDocs(rest) && Submissions(run, doc) == 1 + Submissions(rest, doc)
            && Careful(run) && Within(run, doc, doc + 1) && NoReports(run)
            && (SomeUnclear(run) <==> SomeUnclear(rest))
  {
    var run := [Submitted(doc, attempt, Refused)] + rest;
    assert run[1..] == rest;
    OneTry(doc, attempt, Refused);
    UnclearJoins([Submitted(doc, attempt, Refused)], rest);
  }

  /** Downloading comes before submitting and changes none of this. */
  lemma AfterDownload(head: Action, rest: seq<Action>, doc: nat)
    requires head.Downloaded? && Careful(rest) && Within(rest, doc, doc + 1) && NoReports(rest)
    ensures var run := [head] + rest;
            && TakenDocs(run) == TakenDocs(rest) && Submissions(run, doc) == Submissions(rest, doc)
            && Careful(run) && Within(run, doc, doc + 1) && NoReports(run)
            && (SomeUnclear(run) <==> SomeUnclear(rest))
  {
    var run := [head] + rest;
    assert run[1..] == rest;
    UnclearJoins([head], rest);
  }

  lemma DocFacts(w: World, doc: nat)
    ensures var run := DocActions(w, doc);
            && TakenDocs(run) == (if DocResult(w, doc).Taken? then [doc] else [])
            && Submissions(run, doc) <= PRINT_RETRY_ATTEMPTS
            && Careful(run) && Within(run, doc, doc + 1) && NoReports(run)
            && (SomeUnclear(run) <==> DocResult(w, doc).Unclear?)
  {
    hide LastTry, Tries, TakenDocs, Submissions, Careful, SomeUnclear;
    if w.downloads(doc) {
      TriesFacts(w, doc, 1);
      AfterDownload(Downloaded(doc, true), Tries(w, doc, 1), doc);
    } else {
      NothingHappened(doc);
      AfterDownload(Downloaded(doc, false), [], doc);
    }
  }

  lemma NothingHappened(doc: nat)
    ensures TakenDocs([]) == [] && Submissions([], doc) == 0 && Careful([]) && !SomeUnclear([])
  {
  }

  // ------------------------------------------------------ all documents

  ghost predicate DocsAre(run: seq<Action>, doc: nat, stop: nat, count: nat, unclear: bool)
    requires doc <= stop
  {
    && TakenDocs(run) == Range(doc, stop)
    && (forall d :: Submissions(run, d) <= PRINT_RETRY_ATTEMPTS)
    && Careful(run) && Within(run, doc, count) && NoReports(run)
    && (SomeUnclear(run) <==> unclear)
  }

  lemma {:induction false} DocsFacts(w: World, doc: nat, count: nat)
    requires doc <= count
    ensures var stop := StopsAt(w, doc, count);
            DocsAre(DocsActions(w, doc, count), doc, stop, count, stop < count && DocResult(w, stop).Unclear?)
    decreases count - doc
  {
    if doc < count {
      var first, stop := DocActions(w, doc), StopsAt(w, doc, count);
      DocFacts(w, doc);
      hide DocActions, DocResult;
      if DocResult(w, doc).Taken? {
        DocsFacts(w, doc + 1, count);
        DocsStep(first, DocsActions(w, doc + 1, count), doc, stop, count, stop < count && DocResult(w, stop).Unclear?);
      } else {
        assert first + [] == first;
        DocsStop(first, doc, count);
      }
    }
  }

  /** A document that was taken, and what the ones after it do. */
  lemma DocsStep(first: seq<Action>, rest: seq<Action>, doc: nat, stop: nat, count: nat, unclear: bool)
    requires doc < stop <= count
    requires TakenDocs(first) == [doc] && Submissions(first, doc) <= PRINT_RETRY_ATTEMPTS
    requires Careful(first) && Within(first, doc, doc + 1) && NoReports(first) && !SomeUnclear(first)
    requires DocsAre(rest, doc + 1, stop, count, unclear)
    ensures DocsAre(first + rest, doc, stop, count, unclear)
  {
    hide TakenDocs, Submissions;
    var run := first + rest;
    TakenJoins(first, rest);
    assert [doc] + Range(doc + 1, stop) == Range(doc, stop);
    forall d ensures Submissions(run, d) <= PRINT_RETRY_ATTEMPTS {
      hide Careful, NoReports, SomeUnclear;
      SubmissionsJoin(first, rest, d);
      if d != doc {
        NotSubmitted(first, doc, doc + 1, d);
      } else {
        NotSubmitted(rest, doc + 1, count, d);
      }
    }
    CarefulJoin(first, rest, doc + 1);
    UnclearJoins(first, rest);
  }

  lemma DocsStop(first: seq<Action>, doc: nat, count: nat)
    requires doc < count && TakenDocs(first) == [] && Submissions(first, doc) <= PRINT_RETRY_ATTEMPTS
    requires Careful(first) && Within(first, doc, doc + 1) && NoReports(first)
    ensures DocsAre(first, doc, doc, count, SomeUnclear(first))
  {
    hide TakenDocs, Submissions;
    forall d ensures Submissions(first, d) <= PRINT_RETRY_ATTEMPTS {
      if d != doc {
        NotSubmitted(first, doc, doc + 1, d);
      }
    }
  }

  lemma UnclearJoins(a: seq<Action>, b: seq<Action>)
    ensures SomeUnclear(a + b) <==> SomeUnclear(a) || SomeUnclear(b)
  {
    var run := a + b;
    if SomeUnclear(a) {
      var i :| 0 <= i < |a| && a[i].Submitted? && a[i].outcome.Unclear?;
      assert run[i] == a[i];
    }
    if SomeUnclear(b) {
      var i :| 0 <= i < |b| && b[i].Submitted? && b[i].outcome.Unclear?;
      assert run[|a| + i] == b[i];
    }
  }

  // ------------------------------------------------------- the whole run

  function Documents(w: World, count: nat): seq<Action> {
    if Opens(w) then DocsActions(w, 0, count) else []
  }

  function FinalKind(w: World, count: nat): ReportKind {
    var ending := AttemptEnding(w, count);
    if ending.Failed? then ending.kind else ReportPrinted
  }

  /** The reports of the outcome, at the end of the run. */
  function Finals(w: World, count: nat): seq<Action> {
    match AttemptEnding(w, count)
    case Printed => [Reported(ReportPrinted, true)]
    case ReportLost => [Reported(ReportPrinted, false)] + Retries(w, ReportPrinted, 3, FINAL_REPORT_TRIES)
    case Failed(kind, _) => Retries(w, kind, ReportsMade(w, count), FINAL_REPORT_TRIES)
  }

  lemma RunShape(w: World, count: nat)
    ensures Handled(w, count) == Opening(w) + Documents(w, count) + Finals(w, count)
  {
    hide Opening, DocsActions, Retries, StopsAt, DocResult;
    var tail := match AttemptEnding(w, count)
      case Printed => []
      case ReportLost => Retries(w, ReportPrinted, 3, FINAL_REPORT_TRIES)
      case Failed(kind, _) => Retries(w, kind, ReportsMade(w, count), FINAL_REPORT_TRIES);
    if !Opens(w) {
      assert Opening(w) + [] == Opening(w);
    } else if StopsAt(w, 0, count) == count {
      Rejoin(Opening(w) + DocsActions(w, 0, count), [Reported(ReportPrinted, w.reports(2))], tail);
      assert [Reported(ReportPrinted, true)] + [] == [Reported(ReportPrinted, true)];
    } else {
      assert Opening(w) + DocsActions(w, 0, count) + [] == Opening(w) + DocsActions(w, 0, count);
    }
  }

  /** Reports of one kind, tried until one gets through. */
  predicate FinalReports(run: seq<Action>, kind: ReportKind) {
    && (forall i :: 0 <= i < |run| ==> run[i].Reported? && run[i].kind == kind)
    && (forall i :: 0 <= i < |run| - 1 ==> run[i] == Reported(kind, false))
  }

  lemma {:induction false} RetriesFacts(w: World, kind: ReportKind, made: nat, left: nat)
    ensures var run := Retries(w, kind, made, left);
            && FinalReports(run, kind) && |run| <= left && (left > 0 ==> run != [])
            && (|run| < left ==> run[|run| - 1] == Reported(kind, true))
    decreases left
  {
    if left > 0 && !w.reports(made) {
      RetriesFacts(w, kind, made + 1, left - 1);
      var rest := Retries(w, kind, made + 1, left - 1);
      var run := Retries(w, kind, made, left);
      assert run == [Reported(kind, false)] + rest;
      assert forall i :: 0 < i < |run| ==> run[i] == rest[i - 1];
    }
  }

  lemma FinalsFacts(w: World, count: nat)
    ensures var run := Finals(w, count);
            && FinalReports(run, FinalKind(w, count)) && 1 <= |run| <= 1 + FINAL_REPORT_TRIES
            && (|run| < FINAL_REPORT_TRIES ==> run[|run| - 1] == Reported(FinalKind(w, count), true))
  {
    hide Retries, ReportsMade;
    match AttemptEnding(w, count)
    case Printed =>
    case ReportLost =>
      RetriesFacts(w, ReportPrinted, 3, FINAL_REPORT_TRIES);
      var rest := Retries(w, ReportPrinted, 3, FINAL_REPORT_TRIES);
      var run := [Reported(ReportPrinted, false)] + rest;
      assert forall i :: 0 < i < |run| ==> run[i] == rest[i - 1];
    case Failed(kind, _) => RetriesFacts(w, kind, ReportsMade(w, count), FINAL_REPORT_TRIES);
  }

  /** The documents a run gets through. */
  function Finished(w: World, count: nat): (stop: nat)
    ensures stop <= count
  {
    if Opens(w) then StopsAt(w, 0, count) else 0
  }

  lemma DocumentsFacts(w: World, count: nat)
    ensures var stop := Finished(w, count);
            DocsAre(Documents(w, count), 0, stop, count, Opens(w) && stop < count && DocResult(w, stop).Unclear?)
  {
    if Opens(w) {
      DocsFacts(w, 0, count);
    }
  }

  /** A part of the run without submissions, before or after the documents, changes nothing about them. */
  lemma Surrounded(a: seq<Action>, docs: seq<Action>, b: seq<Action>, stop: nat, count: nat, unclear: bool)
    requires NoSubmissions(a) && NoSubmissions(b) && DocsAre(docs, 0, stop, count, unclear)
    ensures var run := a + docs + b;
            && TakenDocs(run) == Range(0, stop)
            && (forall d :: Submissions(run, d) <= PRINT_RETRY_ATTEMPTS)
            && Careful(run)
            && (SomeUnclear(run) <==> unclear)
  {
    hide TakenDocs, Submissions, NoSubmissions;
    TakenJoins(a, docs);
    TakenJoins(a + docs, b);
    NothingSubmitted(a, 0);
    NothingSubmitted(b, 0);
    var run := a + docs + b;
    forall d ensures Submissions(run, d) <= PRINT_RETRY_ATTEMPTS {
      SubmissionsJoin(a, docs, d);
      SubmissionsJoin(a + docs, b, d);
      NothingSubmitted(a, d);
      NothingSubmitted(b, d);
    }
    SurroundedCareful(a, docs, b);
    UnclearJoins(a, docs);
    UnclearJoins(a + docs, b);
    Quiet(a);
    Quiet(b);
  }

  lemma Quiet(run: seq<Action>)
    requires NoSubmissions(run)
    ensures !SomeUnclear(run)
  {
  }

  lemma SurroundedCareful(a: seq<Action>, docs: seq<Action>, b: seq<Action>)
    requires NoSubmissions(a) && NoSubmissions(b) && Careful(docs)
    ensures Careful(a + docs + b)
  {
    var run := a + docs + b;
    assert forall i :: 0 <= i < |run| && run[i].Submitted? ==> |a| <= i < |a| + |docs| && run[i] == docs[i - |a|];
  }

  /**
   * However things turn out: the spooler took the first so many documents in order; none was submitted more than
   * twice, nor again after it was taken, nor anything after an unclear answer; and a failure message that counts
   * documents already sent counts exactly these.
   */
  lemma AgentIsExact(w: World, count: nat)
    ensures var run := Handled(w, count);
            && |TakenDocs(run)| <= count
            && (forall k :: 0 <= k < |TakenDocs(run)| ==> TakenDocs(run)[k] == k)
            && (forall d :: Submissions(run, d) <= 2)
            && Careful(run)
            && (AlreadySent(w, count).Some? ==> AlreadySent(w, count).value == |TakenDocs(run)|)
            && (AlreadySent(w, count).Some? <==>
                  count > 1 && Reported(ReportPrinting, true) in run && |TakenDocs(run)| < count)
  {
    hide Handled, Submissions, TakenDocs, Careful, SomeUnclear, DocsAre, Opening, DocsActions, Finals, Reports;
    RunShape(w, count);
    DocumentsFacts(w, count);
    FinalsFacts(w, count);
    OpeningFacts(w);
    Surrounded(Opening(w), Documents(w, count), Finals(w, count), Finished(w, count), count,
               Opens(w) && Finished(w, count) < count && DocResult(w, Finished(w, count)).Unclear?);
    ReportsOf(Opening(w), Documents(w, count), Finals(w, count), FinalKind(w, count));
  }

  lemma OpeningFacts(w: World)
    ensures var run := Opening(w);
            && NoSubmissions(run)
            && (forall i :: 0 <= i < |run| && run[i].Reported? ==> run[i].kind in {ReportAccepted, ReportPrinting})
            && (Reported(ReportPrinting, true) in run <==> Opens(w))
  {
    if Opens(w) {
      assert Opening(w)[2] == Reported(ReportPrinting, true);
    }
  }

  /**
   * PRINTED is reported exactly when the backend acknowledged PRINTING and every document was taken, PRINT_UNKNOWN
   * exactly when the spooler gave an unclear answer, and PRINT_FAILED otherwise.
   */
  lemma ReportsAreTrue(w: World, count: nat)
    ensures var run := Handled(w, count);
            && (Reports(run, ReportPrinted) <==>
                  Reported(ReportPrinting, true) in run && |TakenDocs(run)| == count)
            && (Reports(run, ReportUnknown) <==> SomeUnclear(run))
            && (Reports(run, ReportFailed) <==> !Reports(run, ReportPrinted) && !Reports(run, ReportUnknown))
  {
    hide Handled, Submissions, TakenDocs, Careful, SomeUnclear, DocsAre, Opening, DocsActions, Finals, Retries, StopsAt,
         LastTry, ReportsMade, Reports;
    RunShape(w, count);
    DocumentsFacts(w, count);
    FinalsFacts(w, count);
    OpeningFacts(w);
    Surrounded(Opening(w), Documents(w, count), Finals(w, count), Finished(w, count), count,
               Opens(w) && Finished(w, count) < count && DocResult(w, Finished(w, count)).Unclear?);
    ReportsOf(Opening(w), Documents(w, count), Finals(w, count), FinalKind(w, count));
  }

  lemma ReportsOf(a: seq<Action>, docs: seq<Action>, b: seq<Action>, final: ReportKind)
    requires NoReports(docs) && b != [] && FinalReports(b, final) && final !in {ReportAccepted, ReportPrinting}
    requires forall i :: 0 <= i < |a| && a[i].Reported? ==> a[i].kind in {ReportAccepted, ReportPrinting}
    ensures var run := a + docs + b;
            && (forall kind :: kind !in {ReportAccepted, ReportPrinting} ==> (Reports(run, kind) <==> kind == final))
            && (forall kind :: kind in {ReportAccepted, ReportPrinting} ==> (Reports(run, kind) <==> Reports(a, kind)))
            && (Reported(ReportPrinting, true) in run <==> Reported(ReportPrinting, true) in a)
  {
    var run := a + docs + b;
    assert run[|run| - 1] == b[|b| - 1];
    assert forall x :: x in run <==> x in a || x in docs || x in b;
  }

  /**
   * The outcome is reported at the end, in one kind only, at most four times, and never again once it got through;
   * it is given up only after three tries.
   */
  lemma OutcomeIsReported(w: World, count: nat) returns (from: nat, kind: ReportKind)
    ensures var run := Handled(w, count);
            && from < |run| <= from + 4 && kind in {ReportPrinted, ReportFailed, ReportUnknown}
            && FinalReports(run[from..], kind)
            && (forall i :: 0 <= i < from && run[i].Reported? ==> run[i].kind in {ReportAccepted, ReportPrinting})
            && (|run| < from + 3 ==> run[|run| - 1] == Reported(kind, true))
  {
    hide Handled, TakenDocs, Submissions, Careful, SomeUnclear, Opening, DocsActions, Finals, StopsAt, DocResult;
    var run, before := Handled(w, count), Opening(w) + Documents(w, count);
    from, kind := |before|, FinalKind(w, count);
    RunShape(w, count);
    DocumentsFacts(w, count);
    FinalsFacts(w, count);
    OpeningFacts(w);
    assert run[from..] == Finals(w, count);
    assert forall i :: 0 <= i < from ==> run[i] == before[i];
  }

  /** No document is touched before the backend acknowledged both ACCEPTED and PRINTING. */
  lemma NothingBeforeAcknowledged(w: World, count: nat, i: nat)
    requires i < |Handled(w, count)| && (Handled(w, count)[i].Submitted? || Handled(w, count)[i].Downloaded?)
    ensures i >= 3
    ensures Handled(w, count)[..3] == [Reported(ReportAccepted, true), ChosePrinter(true), Reported(ReportPrinting, true)]
  {
    hide Handled, DocsActions, Finals;
    RunShape(w, count);
    FinalsFacts(w, count);
    assert Handled(w, count)[i] in Opening(w) || i >= |Opening(w)|;
  }

  // ----------------------------------------------------- the second try

  /** A first try that is refused is followed at once by a second one of the same document, and by no third. */
  predicate TryAt(run: seq<Action>, i: nat)
    requires i < |run|
  {
    run[i].Submitted? ==>
      && (run[i].attempt == 1 || run[i].attempt == 2)
      && (run[i].attempt == 1 && run[i].outcome.Refused? ==>
            i + 1 < |run| && run[i + 1].Submitted? && run[i + 1].doc == run[i].doc && run[i + 1].attempt == 2)
      && (run[i].attempt == 2 ==> i > 0 && run[i - 1] == Submitted(run[i].doc, 1, Refused))
  }

  predicate TriedTwice(run: seq<Action>) {
    forall i :: 0 <= i < |run| ==> TryAt(run, i)
  }

  lemma TwiceJoins(a: seq<Action>, b: seq<Action>)
    requires TriedTwice(a) && TriedTwice(b)
    ensures TriedTwice(a + b)
  {
    var run := a + b;
    forall i | 0 <= i < |run| ensures TryAt(run, i) {
      if i < |a| {
        assert TryAt(a, i);
      } else {
        assert TryAt(b, i - |a|);
      }
    }
  }

  lemma TriesTwice(w: World, doc: nat)
    ensures TriedTwice(Tries(w, doc, 1))
  {
    assert Tries(w, doc, 2) == [Submitted(doc, 2, w.spooler(doc, 2))];
  }

  lemma QuietTwice(run: seq<Action>)
    requires NoSubmissions(run)
    ensures TriedTwice(run)
  {
  }

  lemma {:induction false} DocsTwice(w: World, doc: nat, count: nat)
    ensures TriedTwice(DocsActions(w, doc, count))
    decreases count - doc
  {
    if doc < count {
      hide TriedTwice, Tries;
      QuietTwice([Downloaded(doc, w.downloads(doc))]);
      QuietTwice([]);
      TriesTwice(w, doc);
      TwiceJoins([Downloaded(doc, w.downloads(doc))], if w.downloads(doc) then Tries(w, doc, 1) else []);
      DocsTwice(w, doc + 1, count);
      TwiceJoins(DocActions(w, doc), if DocResult(w, doc).Taken? then DocsActions(w, doc + 1, count) else []);
    }
  }

  /** In every run a refused document is tried exactly once more. */
  lemma RefusalIsRetried(w: World, count: nat)
    ensures TriedTwice(Handled(w, count))
  {
    hide Handled, TriedTwice, DocsActions, Finals, Opening, Submissions, TakenDocs, DocsAre, NoSubmissions, StopsAt;
    RunShape(w, count);
    FinalsFacts(w, count);
    OpeningFacts(w);
    FinalsQuiet(Finals(w, count), FinalKind(w, count));
    QuietTwice(Opening(w));
    QuietTwice(Finals(w, count));
    NoneTwice();
    DocsTwice(w, 0, count);
    TwiceJoins(Opening(w), Documents(w, count));
    TwiceJoins(Opening(w) + Documents(w, count), Finals(w, count));
  }

  lemma NoneTwice()
    ensures TriedTwice([])
  {
  }

  lemma FinalsQuiet(run: seq<Action>, kind: ReportKind)
    requires FinalReports(run, kind)
    ensures NoSubmissions(run)
  {
  }
}
