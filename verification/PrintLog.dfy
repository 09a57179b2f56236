/** The event log of every job, under any interleaving of handlers, agents and messages. */
module PrintLog {
  import opened Options
  import opened PrintStates
  import opened PrintProtocol

  /** Dispatch attempts that have found the agent offline and are about to say so. */
  function OfflineClaims(s: State, job: JobId): nat {
    s.pending[GoOffline(job)]
  }

  predicate JobOk(s: State, job: JobId)
    requires job in s.jobs
  {
    LogOk(s.jobs[job]) && WithinBudget(s.jobs[job], OfflineClaims(s, job))
  }

  ghost predicate LogInv(s: State) {
    && (forall job :: job in s.jobs ==> JobOk(s, job))
    && (forall job :: GoOffline(job) in s.pending ==> job in s.jobs)
  }

  /** A row whose log, attempts and budget a step leaves alone. */
  predicate SameLog(a: Job, b: Job) {
    a.status == b.status && a.events == b.events && a.attemptCount == b.attemptCount && a.dispatches == b.dispatches
  }

  lemma SameLogOk(s: State, t: State, job: JobId)
    requires job in s.jobs && job in t.jobs && JobOk(s, job)
    requires SameLog(s.jobs[job], t.jobs[job]) && OfflineClaims(t, job) <= OfflineClaims(s, job)
    ensures JobOk(t, job)
  {
  }

  /** A compare-and-swap that is neither a press nor a move to AGENT_OFFLINE. */
  lemma SwapOk(s: State, t: State, job: JobId, to: JobStatus, cause: Cause)
    requires job in s.jobs && JobOk(s, job) && CanTransition(s.jobs[job].status, to)
    requires to != AgentOffline && (to == Queued ==> s.jobs[job].status == AgentOffline) && cause != Press
    requires job in t.jobs && t.jobs[job] == Moved(s.jobs[job], to, cause)
    requires OfflineClaims(t, job) <= OfflineClaims(s, job)
    ensures JobOk(t, job)
  {
    MovedLog(s.jobs[job], to, cause);
    MovedBudget(s.jobs[job], to, cause, OfflineClaims(t, job));
  }

  lemma OfflineWriteOk(s: State, job: JobId, ok: bool)
    requires job in s.jobs && JobOk(s, job) && GoOffline(job) in s.pending
    ensures JobOk(Write(Remove(s, GoOffline(job)), GoOffline(job), ok), job)
  {
    var row := s.jobs[job];
    if Wins(s, GoOffline(job)) {
      MovedLog(row, AgentOffline, Dispatch);
      OfflineBudget(row, Dispatch, OfflineClaims(s, job));
    }
  }

  /** The row a handler's compare-and-swap leaves, when the handler is not reporting an agent offline. */
  lemma SwappedOk(s: State, t: State, h: Handler)
    requires !h.GoOffline? && Wins(s, h) && JobOk(s, h.job)
    requires h.job in t.jobs && t.jobs[h.job] == Swapped(s.jobs[h.job], h)
    requires OfflineClaims(t, h.job) == OfflineClaims(s, h.job)
    ensures JobOk(t, h.job)
  {
    hide LogOk, WithinBudget;
    var row := s.jobs[h.job];
    if h.PressPrint? {
      PressedLog(row, h.printer);
      PressedBudget(row, h.printer, OfflineClaims(s, h.job));
    } else {
      SwapOk(s, t, h.job, Goal(h), Reason(h));
    }
  }

  lemma ExecOk(s: State, h: Handler, ok: bool)
    requires LogInv(s) && h in s.pending
    ensures LogInv(Write(Remove(s, h), h, ok))
  {
    hide JobOk, Write, Wins, Swapped, CasWins;
    var r := Remove(s, h);
    var t := Write(r, h, ok);
    WriteShape(r, h, ok);
    forall job | job in t.jobs ensures JobOk(t, job) {
      assert JobOk(s, job);
      RemoveOk(s, h, job);
      if h == GoOffline(job) {
        OfflineWriteOk(s, job, ok);
      } else if t.jobs[job] == s.jobs[job] {
        SameLogOk(r, t, job);
      } else {
        SwappedOk(r, t, h);
      }
    }
    forall job | GoOffline(job) in t.pending ensures job in t.jobs {
      assert OfflineClaims(t, job) > 0;
    }
  }

  lemma RemoveOk(s: State, h: Handler, job: JobId)
    requires job in s.jobs && JobOk(s, job)
    ensures JobOk(Remove(s, h), job)
  {
    SameLogOk(s, Remove(s, h), job);
  }

  lemma DispatchRowOk(row: Job)
    requires LogOk(row) && row.dispatches > 0
    ensures LogOk(row.(dispatches := row.dispatches - 1))
  {
  }

  /** A dispatch attempt that finds the agent offline turns its attempt into a claim. */
  lemma DispatchedOk(s: State, job: JobId, connected: bool)
    requires Live(s, job) && s.jobs[job].dispatches > 0 && JobOk(s, job)
    ensures job in DispatchAttempt(s, job, connected).jobs && JobOk(DispatchAttempt(s, job, connected), job)
  {
    hide LogOk, PayloadOf;
    DispatchRowOk(s.jobs[job]);
  }

  lemma DispatchFrame(s: State, job: JobId, connected: bool, other: JobId)
    requires other != job
    ensures var t := DispatchAttempt(s, job, connected);
            && (other in t.jobs <==> other in s.jobs) && (other in s.jobs ==> t.jobs[other] == s.jobs[other])
            && OfflineClaims(t, other) == OfflineClaims(s, other)
  {
    hide PayloadOf;
  }

  lemma DispatchOk(s: State, job: JobId, connected: bool)
    requires LogInv(s)
    ensures LogInv(DispatchAttempt(s, job, connected))
  {
    var t := DispatchAttempt(s, job, connected);
    if Live(s, job) && s.jobs[job].dispatches > 0 {
      assert JobOk(s, job);
      DispatchedOk(s, job, connected);
      hide DispatchAttempt, JobOk;
      forall other | other in t.jobs ensures JobOk(t, other) {
        if other != job {
          DispatchFrame(s, job, connected, other);
          SameLogOk(s, t, other);
        }
      }
      forall other | GoOffline(other) in t.pending ensures other in t.jobs {
        if other != job {
          DispatchFrame(s, job, connected, other);
          assert OfflineClaims(s, other) > 0;
        }
      }
    }
  }

  lemma ConfirmOk(s: State, job: JobId, items: seq<Item>)
    requires LogInv(s)
    ensures LogInv(ConfirmOrder(s, job, items))
  {
    var t := ConfirmOrder(s, job, items);
    NewJobLog(items);
    if t != s {
      assert OfflineClaims(s, job) == 0;
      forall other | other in t.jobs ensures JobOk(t, other) {
        if other != job {
          SameLogOk(s, t, other);
        }
      }
    }
  }

  /** Steps that touch no log: edits, agents, messages and reads. */
  lemma QuietOk(s: State, step: Step)
    requires LogInv(s) && !step.Exec? && !step.DispatchRead? && !step.Confirm?
    ensures LogInv(Apply(s, step))
  {
    hide LogOk, WithinBudget;
    var t := Apply(s, step);
    QuietRows(s, step);
    forall job | job in t.jobs ensures JobOk(t, job) {
      SameLogOk(s, t, job);
    }
    forall job | GoOffline(job) in t.pending ensures job in t.jobs {
      assert OfflineClaims(s, job) > 0;
    }
  }

  ghost predicate LogsUntouched(s: State, t: State) {
    && t.jobs.Keys == s.jobs.Keys
    && (forall job :: job in s.jobs ==> SameLog(s.jobs[job], t.jobs[job]))
    && (forall job :: OfflineClaims(t, job) <= OfflineClaims(s, job))
  }

  lemma EditRows(s: State, step: Step)
    requires step.EditItem? || step.DeleteItem? || step.ReorderItems?
    ensures LogsUntouched(s, EditOrder(s, step))
  {
  }

  lemma AgentRows(s: State, run: RunId, outcome: Outcome)
    ensures LogsUntouched(s, AgentStep(s, run, outcome))
  {
  }

  lemma DeliverRows(s: State, r: Report)
    ensures LogsUntouched(s, DeliverReport(s, r))
  {
  }

  lemma HandlerRows(s: State, h: Handler)
    requires !h.GoOffline?
    ensures LogsUntouched(s, WithHandler(s, h))
  {
  }

  lemma ReadRows(s: State, step: Step)
    requires IsRead(step) || step.Drop?
    ensures LogsUntouched(s, Apply(s, step))
  {
    hide WithHandler, Begun, LogsUntouched;
    NothingRows(s);
    if step.Drop? {
      DropRows(s, step.handler);
    } else if Begun(s, step).Some? {
      HandlerRows(s, Begun(s, step).value);
    }
  }

  lemma NothingRows(s: State)
    ensures LogsUntouched(s, s)
  {
  }

  lemma DropRows(s: State, h: Handler)
    ensures LogsUntouched(s, Remove(s, h))
  {
  }

  lemma OtherRows(s: State, step: Step)
    requires step.Upload? || step.Poll? || step.StartRun? || step.ClearHistory?
    ensures LogsUntouched(s, Apply(s, step))
  {
    hide PayloadOf;
  }

  lemma QuietRows(s: State, step: Step)
    requires !step.Exec? && !step.DispatchRead? && !step.Confirm?
    ensures LogsUntouched(s, Apply(s, step))
  {
    hide EditOrder, AgentStep, DeliverReport, LogsUntouched, Begun;
    match step
    case RunStep(run, outcome) => AgentRows(s, run, outcome);
    case Deliver(r) => DeliverRows(s, r);
    case EditItem(_, _, _) => EditRows(s, step);
    case DeleteItem(_, _) => EditRows(s, step);
    case ReorderItems(_, _) => EditRows(s, step);
    case Upload(_) => OtherRows(s, step);
    case Poll(_) => OtherRows(s, step);
    case StartRun(_, _) => OtherRows(s, step);
    case ClearHistory(_) => OtherRows(s, step);
    case _ => ReadRows(s, step);
  }

  lemma StepKeepsLogs(s: State, step: Step)
    requires LogInv(s)
    ensures LogInv(Apply(s, step))
  {
    hide LogInv;
    match step
    case Exec(h, ok) => if h in s.pending { ExecOk(s, h, ok); }
    case DispatchRead(job, connected) => DispatchOk(s, job, connected);
    case Confirm(job, items) => ConfirmOk(s, job, items);
    case _ => QuietOk(s, step);
  }

  lemma {:induction false} ExecutionKeepsLogs(s: State, steps: seq<Step>)
    requires LogInv(s)
    ensures LogInv(Execute(s, steps))
    decreases |steps|
  {
    hide LogInv, Apply;
    if steps != [] {
      StepKeepsLogs(s, steps[0]);
      ExecutionKeepsLogs(Apply(s, steps[0]), steps[1..]);
    }
  }

  /** In every reachable state each log is a legal run to the stored status, and attemptCount counts its presses. */
  lemma LogsAreLegal(steps: seq<Step>, job: JobId)
    requires job in Execute(Initial, steps).jobs
    ensures var row := Execute(Initial, steps).jobs[job];
            && LegalRun(row.events)
            && row.events[|row.events| - 1].status == row.status
            && row.attemptCount == Presses(row.events)
  {
    ExecutionKeepsLogs(Initial, steps);
    assert JobOk(Execute(Initial, steps), job);
  }

  /** A job with n presses of PRINT has at most 14 n + 4 events. */
  lemma LogsAreShort(steps: seq<Step>, job: JobId)
    requires job in Execute(Initial, steps).jobs
    ensures var row := Execute(Initial, steps).jobs[job]; |row.events| <= 14 * row.attemptCount + 4
  {
    ExecutionKeepsLogs(Initial, steps);
    assert JobOk(Execute(Initial, steps), job);
  }
}
