/** The job processor's run is one the protocol's agent can make: what it reports, the protocol's agent sent. */
module AgentRefinement {
  import opened Options
  import opened PrintProtocol
  import opened AgentRun
  import opened AgentExact

  /** What an action of the processor is for the protocol's agent; a first refusal and a success are no news. */
  function Follow(row: Run, a: Action): Move {
    match a
    case Reported(kind, ok) =>
      if kind in {ReportAccepted, ReportPrinting} then AgentMove(row, if ok then Succeeds else Fails, ok)
      else AgentMove(row, Succeeds, false)
    case ChosePrinter(ok) => if ok then Move(row, None) else AgentMove(row, Fails, false)
    case Downloaded(_, ok) => if ok then Move(row, None) else AgentMove(row, Fails, false)
    case Submitted(_, attempt, outcome) =>
      match outcome
      case Taken => AgentMove(row, Succeeds, false)
      case Unclear => AgentMove(row, Outcome.Unclear, false)
      case Refused => if attempt < PRINT_RETRY_ATTEMPTS then Move(row, None) else AgentMove(row, Fails, false)
  }

  /** The protocol's run after the processor's actions. */
  function FollowAll(row: Run, actions: seq<Action>): Run
    decreases |actions|
  {
    if actions == [] then row else FollowAll(Follow(row, actions[0]).run, actions[1..])
  }

  /** What the protocol's agent reports along the way. */
  function SentAlong(row: Run, actions: seq<Action>): set<ReportKind>
    decreases |actions|
  {
    if actions == [] then {}
    else
      var move := Follow(row, actions[0]);
      (if move.report.Some? then {move.report.value} else {}) + SentAlong(move.run, actions[1..])
  }

  lemma {:induction false} FollowJoins(row: Run, a: seq<Action>, b: seq<Action>)
    ensures FollowAll(row, a + b) == FollowAll(FollowAll(row, a), b)
    ensures SentAlong(row, a + b) == SentAlong(row, a) + SentAlong(FollowAll(row, a), b)
    decreases |a|
  {
    hide Follow;
    if a == [] {
      assert a + b == b;
    } else {
      assert (a + b)[1..] == a[1..] + b;
      FollowJoins(Follow(row, a[0]).run, a[1..], b);
    }
  }

  function Printing(payload: Payload, accepted: nat): Run { Run(payload, Submitting, accepted) }

  /** How the protocol's run stands after a document: one more accepted, or over with the matching report. */
  predicate After(payload: Payload, accepted: nat, result: Spooling, end: Run, sent: set<ReportKind>) {
    match result
    case Taken => end == Printing(payload, accepted + 1) && sent == {}
    case Refused => end == Run(payload, Over, accepted) && sent == {ReportFailed}
    case Unclear => end == Run(payload, Over, accepted) && sent == {ReportUnknown}
  }

  lemma OneAction(row: Run, a: Action)
    ensures FollowAll(row, [a]) == Follow(row, a).run
    ensures var report := Follow(row, a).report; SentAlong(row, [a]) == if report.Some? then {report.value} else {}
  {
    assert FollowAll(Follow(row, a).run, []) == Follow(row, a).run;
  }

  lemma {:induction false} TriesFollow(w: World, payload: Payload, doc: nat, attempt: nat)
    requires 1 <= attempt <= PRINT_RETRY_ATTEMPTS && doc < |payload.items|
    ensures var row := Printing(payload, doc); var actions := Tries(w, doc, attempt);
            After(payload, doc, LastTry(w, doc, attempt), FollowAll(row, actions), SentAlong(row, actions))
    decreases PRINT_RETRY_ATTEMPTS - attempt
  {
    hide FollowAll, SentAlong;
    var outcome, row := w.spooler(doc, attempt), Printing(payload, doc);
    var first := Submitted(doc, attempt, outcome);
    OneAction(row, first);
    if outcome.Refused? && attempt < PRINT_RETRY_ATTEMPTS {
      TriesFollow(w, payload, doc, attempt + 1);
      FollowJoins(row, [first], Tries(w, doc, attempt + 1));
    } else {
      assert [first] + [] == [first];
    }
  }

  lemma DocFollows(w: World, payload: Payload, doc: nat)
    requires doc < |payload.items|
    ensures var row := Printing(payload, doc); var actions := DocActions(w, doc);
            After(payload, doc, DocResult(w, doc), FollowAll(row, actions), SentAlong(row, actions))
  {
    hide FollowAll, SentAlong, Tries, LastTry;
    var head, row := Downloaded(doc, w.downloads(doc)), Printing(payload, doc);
    OneAction(row, head);
    if w.downloads(doc) {
      TriesFollow(w, payload, doc, 1);
      FollowJoins(row, [head], Tries(w, doc, 1));
    } else {
      assert [head] + [] == [head];
    }
  }

  lemma {:induction false} DocsFollow(w: World, payload: Payload, doc: nat)
    requires doc <= |payload.items|
    ensures var count := |payload.items|; var stop := StopsAt(w, doc, count);
            var row := Printing(payload, doc); var actions := DocsActions(w, doc, count);
            if stop == count then FollowAll(row, actions) == Printing(payload, count) && SentAlong(row, actions) == {}
            else After(payload, stop, DocResult(w, stop), FollowAll(row, actions), SentAlong(row, actions))
    decreases |payload.items| - doc
  {
    var count, row := |payload.items|, Printing(payload, doc);
    if doc < count {
      hide FollowAll, SentAlong, DocActions, DocResult;
      DocFollows(w, payload, doc);
      if DocResult(w, doc).Taken? {
        DocsFollow(w, payload, doc + 1);
        FollowJoins(row, DocActions(w, doc), DocsActions(w, doc + 1, count));
      } else {
        assert DocActions(w, doc) + [] == DocActions(w, doc);
      }
    }
  }

  /** Once the run is over its final reports are only repeats. */
  lemma {:induction false} OverStays(row: Run, actions: seq<Action>)
    requires row.phase.Over?
    ensures FollowAll(row, actions) == row && SentAlong(row, actions) == {}
    decreases |actions|
  {
    if actions != [] {
      OverStays(row, actions[1..]);
    }
  }

  /** The last document taken, the protocol's agent reports PRINTED with the first final report. */
  lemma PrintedFollows(payload: Payload, finals: seq<Action>)
    requires finals != [] && FinalReports(finals, ReportPrinted)
    ensures var row := Printing(payload, |payload.items|);
            FollowAll(row, finals) == Run(payload, Over, |payload.items|) && SentAlong(row, finals) == {ReportPrinted}
  {
    OverStays(Run(payload, Over, |payload.items|), finals[1..]);
  }

  lemma OpeningFollows(w: World, payload: Payload)
    ensures var row := Run(payload, Accepting, 0); var end := FollowAll(row, Opening(w));
            if Opens(w) then end == Printing(payload, 0) && SentAlong(row, Opening(w)) == {ReportPrinting}
            else
              && end == Run(payload, Over, 0) && ReportFailed in SentAlong(row, Opening(w))
              && (Reports(Opening(w), ReportPrinting) ==> ReportPrinting in SentAlong(row, Opening(w)))
  {
    hide FollowAll, SentAlong;
    var row := Run(payload, Accepting, 0);
    if !w.reports(0) {
      OneAction(row, Reported(ReportAccepted, false));
    } else {
      var starting := Run(payload, Starting, 0);
      OneAction(row, Reported(ReportAccepted, true));
      OneAction(starting, ChosePrinter(w.printerFound));
      FollowJoins(row, [Reported(ReportAccepted, true)], [ChosePrinter(w.printerFound)]);
      if w.printerFound {
        OneAction(starting, Reported(ReportPrinting, w.reports(1)));
        var chosen := [Reported(ReportAccepted, true), ChosePrinter(true)];
        FollowJoins(row, chosen, [Reported(ReportPrinting, w.reports(1))]);
        assert Opening(w) == chosen + [Reported(ReportPrinting, w.reports(1))];
        assert [Reported(ReportAccepted, true)] + [ChosePrinter(true)] == chosen;
      } else {
        assert Opening(w) == [Reported(ReportAccepted, true)] + [ChosePrinter(false)];
      }
    }
  }

  /**
   * For every payload and however things turn out, the protocol's agent can make the processor's run: it ends over,
   * with as many documents accepted as the spooler took, and has sent every report the processor makes.
   */
  lemma ProcessorFollowsProtocol(w: World, payload: Payload)
    ensures var run := Handled(w, |payload.items|); var start := Run(payload, Accepting, 0);
            && FollowAll(start, run) == Run(payload, Over, |TakenDocs(run)|)
            && (forall kind :: Reports(run, kind) ==> kind == ReportAccepted || kind in SentAlong(start, run))
  {
    hide FollowAll, SentAlong, Opening, DocsActions, Finals, Handled, StopsAt, DocResult, LastTry, TakenDocs, Retries;
    hide Submissions, Careful, SomeUnclear, Opens, Reports;
    var count, start := |payload.items|, Run(payload, Accepting, 0);
    var run, middle := Handled(w, count), Opening(w) + Documents(w, count);
    RunShape(w, count);
    FinalsFacts(w, count);
    OpeningFollows(w, payload);
    FollowJoins(start, Opening(w), Documents(w, count));
    FollowJoins(start, middle, Finals(w, count));
    TakenIs(w, count);
    KindsAre(w, count);
    if Opens(w) {
      DocsFollow(w, payload, 0);
      if Finished(w, count) == count {
        PrintedFollows(payload, Finals(w, count));
      } else {
        OverStays(Run(payload, Over, Finished(w, count)), Finals(w, count));
      }
    } else {
      NoDocuments(start, w, count);
      OverStays(Run(payload, Over, 0), Finals(w, count));
    }
  }

  lemma NoDocuments(row: Run, w: World, count: nat)
    requires !Opens(w)
    ensures Documents(w, count) == []
    ensures forall end: Run :: FollowAll(end, []) == end && SentAlong(end, []) == {}
  {
  }

  lemma TakenIs(w: World, count: nat)
    ensures |TakenDocs(Handled(w, count))| == Finished(w, count)
  {
    hide Handled, Submissions, TakenDocs, Careful, SomeUnclear, DocsAre, Opening, DocsActions, Finals;
    RunShape(w, count);
    DocumentsFacts(w, count);
    FinalsFacts(w, count);
    OpeningFacts(w);
    Surrounded(Opening(w), Documents(w, count), Finals(w, count), Finished(w, count), count,
               Opens(w) && Finished(w, count) < count && DocResult(w, Finished(w, count)).Unclear?);
  }

  lemma KindsAre(w: World, count: nat)
    ensures forall kind :: Reports(Handled(w, count), kind) ==>
              || kind in {ReportAccepted, FinalKind(w, count)}
              || (kind == ReportPrinting && Reports(Opening(w), ReportPrinting))
  {
    hide Handled, DocsAre, Opening, DocsActions, Finals, Reports;
    RunShape(w, count);
    DocumentsFacts(w, count);
    FinalsFacts(w, count);
    OpeningFacts(w);
    ReportsOf(Opening(w), Documents(w, count), Finals(w, count), FinalKind(w, count));
  }
}
