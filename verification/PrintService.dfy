/**
 * The backend's handlers as they are written, updating rows step by step. Each is proved to do what the protocol's
 * steps for it do when they are taken to the end with nothing in between.
 */
module PrintService {
  import opened Options
  import opened PrintStates
  import opened PrintProtocol

  /** Runs the handlers in progress, at most `writes` writes of them. */
  ghost function Settle(s: State, writes: nat): State
    decreases writes
  {
    if writes == 0 || s.pending == multiset{} then s
    else
      var h :| h in s.pending;
      Settle(Apply(s, Exec(h, true)), writes - 1)
  }

  /** The most writes of a handler: picked up, moved, and on to retention. */
  const MAX_WRITES := 3

  /** A step of the protocol whose handler runs to its end at once. */
  ghost function Alone(s: State, step: Step): State {
    Settle(Apply(s, step), MAX_WRITES)
  }

  predicate Idle(s: State) { s.pending == multiset{} }

  /** A handler on its own loses its swap and ends, or wins it and goes on. */
  lemma SettleOne(s: State, h: Handler, writes: nat)
    requires Idle(s) && writes > 0 && !h.DeleteObjects? && !h.MarkDeleted?
    ensures Settle(WithHandler(s, h), writes)
         == if Wins(s, h) then Settle(AfterSwap(WithJob(s, h.job, Swapped(s.jobs[h.job], h)), h), writes - 1) else s
  {
    hide AfterSwap, Swapped, CasWins;
    var t := WithHandler(s, h);
    assert h in t.pending && forall g :: g in t.pending ==> g == h;
    assert Remove(t, h) == s;
    assert Apply(t, Exec(h, true)) == Write(s, h, true);
  }

  class PrintJobs {
    var jobs: map<JobId, Job>
    var docs: map<DocId, bool>
    var storage: set<DocId>
    var payloads: set<Payload>

    constructor ()
      ensures jobs == map[] && docs == map[] && storage == {} && payloads == {}
    {
      jobs, docs, storage, payloads := map[], map[], {}, {};
    }

    /** The protocol's state with these rows and objects, the agents of `net`, and no handler in progress. */
    ghost function In(net: State): (s: State)
      reads this
      ensures Idle(s)
    {
      net.(jobs := jobs, docs := docs, storage := storage, payloads := payloads, pending := multiset{})
    }

    /** The same with the sweep's handlers still in progress. */
    ghost function Sweeping(net: State, pending: multiset<Handler>): State
      reads this
    {
      In(net).(pending := pending)
    }

    /** Compare-and-swap on the status, with its event in the same transaction; a lost one changes nothing. */
    method Transition(job: JobId, from: JobStatus, to: JobStatus, cause: Cause) returns (ok: bool)
      modifies this`jobs
      ensures ok == (job in old(jobs) && CasWins(old(jobs)[job], from, to))
      ensures jobs == if ok then old(jobs)[job := Moved(old(jobs)[job], to, cause)] else old(jobs)
    {
      ok := false;
      if !CanTransition(from, to) || job !in jobs || jobs[job].cleared {
        return;
      }
      var row := jobs[job];
      if row.status == from {
        jobs := jobs[job := row.(status := to, events := row.events + [Event(to, cause)])];
        ok := true;
      }
    }

    /** A confirmed order: its row, first event and documents in one transaction, then its first swap. */
    method ConfirmFromQuote(job: JobId, items: seq<Item>, ghost net: State) returns (ok: bool)
      requires job !in jobs
      modifies this`jobs, this`docs
      ensures ok == (items != [] && forall k :: 0 <= k < |items| ==> items[k].doc in old(docs))
      ensures In(net) == Alone(old(In(net)), Confirm(job, items))
    {
      hide Settle;
      ConfirmAlone(In(net), job, items);
      if items == [] || exists k :: 0 <= k < |items| && items[k].doc !in docs {
        return false;
      }
      var ordered := set k | 0 <= k < |items| :: items[k].doc;
      jobs := jobs[job := NewJob(items)];
      docs := map doc | doc in docs :: if doc in ordered then false else docs[doc];
      ok := Transition(job, Created, PrintEligible, Confirmation);
    }

    method TriggerPrint(job: JobId, printer: PrinterId, ghost net: State) returns (ok: bool)
      modifies this`jobs
      ensures ok == (job in old(jobs) && !old(jobs)[job].cleared && Pressable(old(jobs)[job].status))
      ensures In(net) == Alone(old(In(net)), PressRead(job, printer))
    {
      hide Swapped, Settle;
      ghost var s := In(net);
      ok := false;
      PressAlone(s, job, printer);
      if job !in jobs || jobs[job].cleared {
        return;
      }
      var from := jobs[job].status;
      if from != PrintEligible && from != AgentOffline && from != PrintFailed {
        return;
      }
      ok := Transition(job, from, Queued, Press);
      var row := jobs[job];
      jobs := jobs[job := row.(printer := Some(printer), attemptCount := row.attemptCount + 1,
                               dispatches := row.dispatches + DISPATCH_ATTEMPTS)];
    }

    /** One attempt of the dispatch queue: a push to the connected agent, or AGENT_OFFLINE. */
    method DispatchToAgent(job: JobId, connected: bool, ghost net: State)
      modifies this`jobs, this`payloads
      ensures In(net) == Alone(old(In(net)), DispatchRead(job, connected))
    {
      hide Swapped, Settle;
      ghost var s := In(net);
      DispatchAlone(s, job, connected);
      if job !in jobs || jobs[job].cleared || jobs[job].dispatches == 0 {
        return;
      }
      jobs := jobs[job := jobs[job].(dispatches := jobs[job].dispatches - 1)];
      var row := jobs[job];
      if row.status != Queued {
        return;
      }
      if row.printer.None? || !connected {
        var _ := Transition(job, Queued, AgentOffline, Dispatch);
        return;
      }
      payloads := payloads + {Payload(job, row.items, row.printer.value, row.attemptCount)};
    }

    /** A shopkeeper's answer for an order in doubt; a printed one goes on to retention. */
    method Reconcile(job: JobId, printed: bool, ghost net: State) returns (ok: bool)
      modifies this`jobs
      ensures ok == (job in old(jobs) && !old(jobs)[job].cleared && old(jobs)[job].status == PrintUnknown)
      ensures In(net) == Alone(old(In(net)), ReconcileRead(job, printed))
    {
      hide Settle;
      ghost var s := In(net);
      ok := false;
      ReconcileAlone(s, job, printed);
      if job !in jobs || jobs[job].cleared || jobs[job].status != PrintUnknown {
        return;
      }
      ok := Transition(job, PrintUnknown, if printed then Printed else PrintFailed, Shopkeeper);
      if printed {
        ok := Transition(job, Printed, RetentionPending, Retention);
      }
    }

    /**
     * An agent's report on a job of its printer. It is acknowledged unless a swap was refused; a swap made before
     * that, back to the queue, stays.
     */
    method ReportAgentStatus(job: JobId, printer: PrinterId, r: Report, ghost net: State) returns (ok: bool)
      requires r in net.sent && r.run in net.runs
      requires net.runs[r.run].payload.job == job && net.runs[r.run].payload.printer == printer
      modifies this`jobs
      ensures Alone(old(In(net)), Deliver(r)) == Acknowledge(In(net), if ok then Some(r) else None)
    {
      hide Settle;
      ghost var s := In(net);
      DeliverAlone(s, r);
      if job !in jobs || jobs[job].cleared || jobs[job].printer != Some(printer) {
        return false;
      }
      var to, current := Target(r.kind), jobs[job].status;
      if current == AgentOffline && to != PrintFailed {
        ok := Transition(job, AgentOffline, Queued, Pickup(r.run));
        current := Queued;
      }
      if current != to {
        ok := Transition(job, current, to, AgentReport(r.run));
        if !ok {
          return;
        }
      }
      if to == Printed {
        ok := Transition(job, Printed, RetentionPending, Retention);
        return;
      }
      ok := true;
    }

    /** Orders that have been printing for too long are put in doubt. */
    method FlagStalePrinting(stale: seq<JobId>, ghost net: State)
      requires forall k :: 0 <= k < |stale| ==> Live(In(net), stale[k]) && jobs[stale[k]].status == Printing
      requires forall j, k :: 0 <= j < k < |stale| ==> stale[j] != stale[k]
      modifies this`jobs
      ensures In(net) == FlagAll(old(In(net)), stale)
      ensures forall job :: job in stale ==> job in jobs && jobs[job].status == PrintUnknown
    {
      hide Settle, Alone, FlagAll;
      var i := 0;
      FlagRest(In(net), stale, 0);
      while i < |stale|
        invariant 0 <= i <= |stale|
        invariant forall k :: i <= k < |stale| ==> Live(In(net), stale[k]) && jobs[stale[k]].status == Printing
        invariant forall k :: 0 <= k < i ==> stale[k] in jobs && jobs[stale[k]].status == PrintUnknown
        invariant FlagAll(In(net), stale[i..]) == FlagAll(old(In(net)), stale)
      {
        StaleAlone(In(net), stale[i]);
        FlagRest(In(net), stale, i);
        var _ := Transition(stale[i], Printing, PrintUnknown, StaleSweep);
        i := i + 1;
      }
      FlagRest(In(net), stale, |stale|);
    }

    /** Deletes the uploaded objects of one order; the order is DELETED unless a delete failed. */
    method SweepJob(job: JobId, pendingDocuments: seq<DocId>, deletes: nat -> bool, ghost net: State,
                    ghost others: multiset<Handler>)
      returns (deleted: bool)
      requires Live(In(net), job) && jobs[job].status == RetentionPending
      modifies this`jobs, this`docs, this`storage
      ensures Sweeping(net, others)
           == Execute(old(Sweeping(net, others + multiset{DeleteObjects(job, pendingDocuments, false)})),
                      SweepSteps(job, pendingDocuments, false, deletes, 0))
      ensures deleted <==> forall i :: 0 <= i < |pendingDocuments| ==> deletes(i)
      ensures deleted <==> job in jobs && jobs[job].status == Deleted
      ensures forall doc :: doc in storage <==>
                doc in old(storage) && !exists i :: 0 <= i < |pendingDocuments| && deletes(i) && pendingDocuments[i] == doc
      ensures forall i :: 0 <= i < |pendingDocuments| && deletes(i) ==>
                pendingDocuments[i] in docs && docs[pendingDocuments[i]]
      ensures jobs.Keys == old(jobs).Keys
      ensures forall other :: other in jobs && other != job ==> jobs[other] == old(jobs)[other]
    {
      hide Execute, Apply, SweepSteps;
      var deleteFailed, i := false, 0;
      ghost var start := Sweeping(net, others + multiset{DeleteObjects(job, pendingDocuments, false)});
      ghost var todo := pendingDocuments;
      ghost var before := jobs;
      while i < |pendingDocuments|
        invariant 0 <= i <= |pendingDocuments| && todo == pendingDocuments[i..] && jobs == before
        invariant deleteFailed <==> !forall k :: 0 <= k < i ==> deletes(k)
        invariant forall doc :: doc in storage <==>
                    doc in old(storage) && !exists k :: 0 <= k < i && deletes(k) && pendingDocuments[k] == doc
        invariant forall k :: 0 <= k < i && deletes(k) ==> pendingDocuments[k] in docs && docs[pendingDocuments[k]]
        invariant Execute(Sweeping(net, others + multiset{DeleteObjects(job, todo, deleteFailed)}),
                          SweepSteps(job, todo, deleteFailed, deletes, i))
               == Execute(start, SweepSteps(job, pendingDocuments, false, deletes, 0))
      {
        var document := pendingDocuments[i];
        SweepOne(In(net), others, job, todo, deleteFailed, deletes, i);
        if deletes(i) {
          storage := storage - {document};
          docs := docs[document := true];
        } else {
          deleteFailed := true;
        }
        todo := todo[1..];
        i := i + 1;
      }
      SweepEnd(In(net), others, job, deleteFailed, deletes, i);
      deleted := false;
      if deleteFailed {
        return;
      }
      deleted := Transition(job, RetentionPending, Deleted, Retention);
    }

    /** One sweep: all finished orders are read first, then worked off one after the other. */
    method Sweep(candidates: seq<JobId>, deletes: (nat, nat) -> bool, ghost net: State) returns (deletedCount: nat)
      requires Waiting(In(net), candidates)
      modifies this`jobs, this`docs, this`storage
      ensures In(net) == Execute(old(In(net)), SweepReads(candidates) + AllSteps(old(In(net)), candidates, deletes, 0))
      ensures jobs.Keys == old(jobs).Keys && deletedCount == Count(jobs, candidates)
    {
      hide Execute, Apply, SweepSteps, AllSteps, SweepHandlers, Count, PendingDocs, SweepReads;
      var found := docs;
      ghost var start := In(net);
      deletedCount := 0;
      var k := 0;
      SweepStarts(start, candidates, deletes);
      CountNothing(jobs, candidates);
      while k < |candidates|
        invariant 0 <= k <= |candidates| && jobs.Keys == start.jobs.Keys
        invariant forall i :: k <= i < |candidates| ==> jobs[candidates[i]] == start.jobs[candidates[i]]
        invariant deletedCount == Count(jobs, candidates[..k])
        invariant Execute(Sweeping(net, SweepHandlers(start, candidates[k..])), AllSteps(start, candidates[k..], deletes, k))
               == Execute(start, SweepReads(candidates) + AllSteps(start, candidates, deletes, 0))
      {
        var pendingDocuments := PendingDocs(found, jobs[candidates[k]].items);
        SweepNext(start, Sweeping(net, SweepHandlers(start, candidates[k..])), candidates, deletes, k);
        ghost var before := jobs;
        var deleted := SweepJob(candidates[k], pendingDocuments, i requires i >= 0 => deletes(k, i), net,
                                SweepHandlers(start, candidates[k + 1..]));
        CountNext(before, jobs, candidates, k);
        if deleted {
          deletedCount := deletedCount + 1;
        }
        k := k + 1;
      }
      assert candidates[..k] == candidates && candidates[k..] == [];
      SweepsEnd(start, deletes, k);
    }
  }

  // ------------------------------------------------------------- sweeps

  ghost function FlagAll(s: State, stale: seq<JobId>): State
    decreases |stale|
  {
    if stale == [] then s else FlagAll(Alone(s, StaleRead(stale[0])), stale[1..])
  }

  lemma FlagRest(s: State, stale: seq<JobId>, i: nat)
    requires i <= |stale|
    ensures FlagAll(s, stale[i..])
         == if i == |stale| then s else FlagAll(Alone(s, StaleRead(stale[i])), stale[i + 1..])
    ensures stale[0..] == stale
  {
    if i < |stale| {
      assert stale[i..][1..] == stale[i + 1..];
    }
  }

  /** The rest of a sweep's work on one order, given which deletes succeed. */
  function SweepSteps(job: JobId, todo: seq<DocId>, failed: bool, deletes: nat -> bool, i: nat): seq<Step> {
    if todo == [] then [Exec(DeleteObjects(job, [], failed), true)]
    else if deletes(i) then
      [Exec(DeleteObjects(job, todo, failed), true), Exec(MarkDeleted(job, todo[0], todo[1..], failed), true)] +
      SweepSteps(job, todo[1..], failed, deletes, i + 1)
    else [Exec(DeleteObjects(job, todo, failed), false)] + SweepSteps(job, todo[1..], true, deletes, i + 1)
  }

  /** What a sweep finds: finished orders, each once. */
  predicate Waiting(s: State, candidates: seq<JobId>) {
    && (forall k :: 0 <= k < |candidates| ==>
          Live(s, candidates[k]) && s.jobs[candidates[k]].status == RetentionPending)
    && (forall j, k :: 0 <= j < k < |candidates| ==> candidates[j] != candidates[k])
  }

  function SweepReads(candidates: seq<JobId>): seq<Step> {
    if candidates == [] then [] else [SweepRead(candidates[0])] + SweepReads(candidates[1..])
  }

  function SweepHandler(s: State, job: JobId): Handler
    requires job in s.jobs
  {
    DeleteObjects(job, PendingDocs(s.docs, s.jobs[job].items), false)
  }

  ghost function SweepHandlers(s: State, candidates: seq<JobId>): multiset<Handler>
    requires forall k :: 0 <= k < |candidates| ==> candidates[k] in s.jobs
  {
    if candidates == [] then multiset{}
    else SweepHandlers(s, candidates[1..]) + multiset{SweepHandler(s, candidates[0])}
  }

  ghost function AllSteps(s: State, candidates: seq<JobId>, deletes: (nat, nat) -> bool, k: nat): seq<Step>
    requires forall k :: 0 <= k < |candidates| ==> candidates[k] in s.jobs
    decreases |candidates|
  {
    if candidates == [] then []
    else
      var todo := PendingDocs(s.docs, s.jobs[candidates[0]].items);
      SweepSteps(candidates[0], todo, false, i requires i >= 0 => deletes(k, i), 0) +
      AllSteps(s, candidates[1..], deletes, k + 1)
  }

  /** How many of these orders are DELETED. */
  function Count(jobs: map<JobId, Job>, candidates: seq<JobId>): nat
    requires forall k :: 0 <= k < |candidates| ==> candidates[k] in jobs
  {
    if candidates == [] then 0
    else
      var last := |candidates| - 1;
      Count(jobs, candidates[..last]) + if jobs[candidates[last]].status == Deleted then 1 else 0
  }

  lemma {:induction false} SameCount(jobs: map<JobId, Job>, others: map<JobId, Job>, candidates: seq<JobId>)
    requires forall k :: 0 <= k < |candidates| ==>
               candidates[k] in jobs && candidates[k] in others && jobs[candidates[k]] == others[candidates[k]]
    ensures Count(jobs, candidates) == Count(others, candidates)
  {
    if candidates != [] {
      SameCount(jobs, others, candidates[..|candidates| - 1]);
    }
  }

  lemma CountNext(before: map<JobId, Job>, after: map<JobId, Job>, candidates: seq<JobId>, k: nat)
    requires k < |candidates| && (forall i :: 0 <= i <= k ==> candidates[i] in before && candidates[i] in after)
    requires forall i :: 0 <= i < k ==> before[candidates[i]] == after[candidates[i]]
    ensures Count(after, candidates[..k + 1])
         == Count(before, candidates[..k]) + if after[candidates[k]].status == Deleted then 1 else 0
  {
    SameCount(before, after, candidates[..k]);
    assert candidates[..k + 1][..k] == candidates[..k];
  }

  lemma {:induction false} SweepsBegin(s: State, candidates: seq<JobId>)
    requires Waiting(s, candidates)
    ensures Execute(s, SweepReads(candidates)) == s.(pending := s.pending + SweepHandlers(s, candidates))
    decreases |candidates|
  {
    hide PendingDocs;
    if candidates == [] {
      assert s.pending + multiset{} == s.pending;
    } else {
      var t := Apply(s, SweepRead(candidates[0]));
      assert t == WithHandler(s, SweepHandler(s, candidates[0]));
      hide Apply;
      SweepsBegin(t, candidates[1..]);
      SameHandlers(s, t, candidates[1..]);
      assert SweepReads(candidates)[1..] == SweepReads(candidates[1..]);
      assert t.pending + SweepHandlers(s, candidates[1..]) == s.pending + SweepHandlers(s, candidates);
    }
  }

  lemma SweepStarts(s: State, candidates: seq<JobId>, deletes: (nat, nat) -> bool)
    requires Idle(s) && Waiting(s, candidates)
    ensures candidates[0..] == candidates
    ensures Execute(s.(pending := SweepHandlers(s, candidates)), AllSteps(s, candidates, deletes, 0))
         == Execute(s, SweepReads(candidates) + AllSteps(s, candidates, deletes, 0))
  {
    hide Execute, AllSteps, SweepHandlers;
    SweepsBegin(s, candidates);
    assert multiset{} + SweepHandlers(s, candidates) == SweepHandlers(s, candidates);
    ExecuteJoins(s, SweepReads(candidates), AllSteps(s, candidates, deletes, 0));
  }

  lemma CountNothing(jobs: map<JobId, Job>, candidates: seq<JobId>)
    ensures candidates[..0] == [] && Count(jobs, []) == 0
  {
  }

  lemma {:induction false} SameHandlers(s: State, t: State, candidates: seq<JobId>)
    requires (forall k :: 0 <= k < |candidates| ==> candidates[k] in s.jobs) && t.jobs == s.jobs && t.docs == s.docs
    ensures SweepHandlers(s, candidates) == SweepHandlers(t, candidates)
  {
    if candidates != [] {
      SameHandlers(s, t, candidates[1..]);
    }
  }

  lemma SweepNext(s: State, now: State, candidates: seq<JobId>, deletes: (nat, nat) -> bool, k: nat)
    requires k < |candidates| && forall i :: 0 <= i < |candidates| ==> candidates[i] in s.jobs
    ensures SweepHandlers(s, candidates[k..])
         == SweepHandlers(s, candidates[k + 1..]) + multiset{SweepHandler(s, candidates[k])}
    ensures Execute(now, AllSteps(s, candidates[k..], deletes, k))
         == Execute(Execute(now, SweepSteps(candidates[k], PendingDocs(s.docs, s.jobs[candidates[k]].items), false,
                                            i requires i >= 0 => deletes(k, i), 0)),
                    AllSteps(s, candidates[k + 1..], deletes, k + 1))
  {
    assert candidates[k..][1..] == candidates[k + 1..];
    ExecuteJoins(now, SweepSteps(candidates[k], PendingDocs(s.docs, s.jobs[candidates[k]].items), false,
                                 i requires i >= 0 => deletes(k, i), 0),
                 AllSteps(s, candidates[k + 1..], deletes, k + 1));
  }

  lemma SweepsEnd(s: State, deletes: (nat, nat) -> bool, k: nat)
    ensures SweepHandlers(s, []) == multiset{} && AllSteps(s, [], deletes, k) == []
    ensures forall t: State :: Execute(t, []) == t
  {
  }

  lemma {:induction false} ExecuteJoins(s: State, a: seq<Step>, b: seq<Step>)
    ensures Execute(s, a + b) == Execute(Execute(s, a), b)
    decreases |a|
  {
    hide Apply;
    if a == [] {
      assert a + b == b;
    } else {
      ExecuteJoins(Apply(s, a[0]), a[1..], b);
      assert (a + b)[1..] == a[1..] + b;
    }
  }

  lemma ExecuteOne(s: State, step: Step)
    ensures Execute(s, [step]) == Apply(s, step)
  {
    hide Apply;
    assert Execute(Apply(s, step), []) == Apply(s, step);
  }

  lemma RemoveOne(s: State, others: multiset<Handler>, h: Handler)
    ensures var t := s.(pending := others + multiset{h}); h in t.pending && Remove(t, h) == s.(pending := others)
  {
  }

  lemma ExecOne(s: State, others: multiset<Handler>, h: Handler, ok: bool)
    ensures Apply(s.(pending := others + multiset{h}), Exec(h, ok)) == Write(s.(pending := others), h, ok)
  {
    hide Write;
    RemoveOne(s, others, h);
  }

  lemma SweepOne(s: State, others: multiset<Handler>, job: JobId, todo: seq<DocId>, failed: bool,
                 deletes: nat -> bool, i: nat)
    requires todo != []
    ensures Execute(s.(pending := others + multiset{DeleteObjects(job, todo, failed)}),
                    SweepSteps(job, todo, failed, deletes, i))
         == if deletes(i) then
              Execute(s.(storage := s.storage - {todo[0]}, docs := s.docs[todo[0] := true],
                         pending := others + multiset{DeleteObjects(job, todo[1..], failed)}),
                      SweepSteps(job, todo[1..], failed, deletes, i + 1))
            else
              Execute(s.(pending := others + multiset{DeleteObjects(job, todo[1..], true)}),
                      SweepSteps(job, todo[1..], true, deletes, i + 1))
  {
    hide Execute, Apply;
    var start := s.(pending := others + multiset{DeleteObjects(job, todo, failed)});
    var first := Exec(DeleteObjects(job, todo, failed), deletes(i));
    ExecOne(s, others, DeleteObjects(job, todo, failed), deletes(i));
    ExecuteOne(start, first);
    if deletes(i) {
      var mark := MarkDeleted(job, todo[0], todo[1..], failed);
      var gone := s.(storage := s.storage - {todo[0]});
      var rest := SweepSteps(job, todo[1..], failed, deletes, i + 1);
      ExecOne(gone, others, mark, true);
      ExecuteOne(gone.(pending := others + multiset{mark}), Exec(mark, true));
      assert [first, Exec(mark, true)] == [first] + [Exec(mark, true)];
      ExecuteJoins(start, [first], [Exec(mark, true)]);
      ExecuteJoins(start, [first, Exec(mark, true)], rest);
    } else {
      ExecuteJoins(start, [first], SweepSteps(job, todo[1..], true, deletes, i + 1));
    }
  }

  lemma SweepEnd(s: State, others: multiset<Handler>, job: JobId, failed: bool, deletes: nat -> bool, i: nat)
    requires job in s.jobs
    ensures Execute(s.(pending := others + multiset{DeleteObjects(job, [], failed)}),
                    SweepSteps(job, [], failed, deletes, i))
         == if !failed && CasWins(s.jobs[job], RetentionPending, Deleted)
            then WithJob(s.(pending := others), job, Moved(s.jobs[job], Deleted, Retention))
            else s.(pending := others)
  {
    hide Execute, Apply, Moved, CasWins;
    var h := DeleteObjects(job, [], failed);
    ExecOne(s, others, h, true);
    ExecuteOne(s.(pending := others + multiset{h}), Exec(h, true));
  }

  /** What an agent's report does to the row, and whether it is acknowledged. */
  function PickedUp(row: Job, r: Report): Job {
    if row.status == AgentOffline && Target(r.kind) != PrintFailed then Moved(row, Queued, Pickup(r.run)) else row
  }

  function MovedOn(row: Job, r: Report): Option<Job> {
    var to := Target(r.kind);
    if row.status != to && !CanTransition(row.status, to) then None
    else
      var moved := if row.status == to then row else Moved(row, to, AgentReport(r.run));
      Some(if to == Printed then Moved(moved, RetentionPending, Retention) else moved)
  }

  // ------------------------------------------- the protocol's steps, run out

  lemma SettleIdle(s: State, writes: nat)
    requires Idle(s)
    ensures Settle(s, writes) == s
  {
  }

  lemma PressAlone(s: State, job: JobId, printer: PrinterId)
    requires Idle(s)
    ensures Alone(s, PressRead(job, printer))
         == if Live(s, job) && Pressable(s.jobs[job].status) then WithJob(s, job, Pressed(s.jobs[job], printer)) else s
  {
    hide Pressed, WithJob, WithHandler, Settle;
    if Live(s, job) && Pressable(s.jobs[job].status) {
      SettleOne(s, PressPrint(job, s.jobs[job].status, printer), MAX_WRITES);
      IdleRow(s, job, Pressed(s.jobs[job], printer));
      SettleIdle(WithJob(s, job, Pressed(s.jobs[job], printer)), MAX_WRITES - 1);
    } else {
      SettleIdle(s, MAX_WRITES);
    }
  }

  lemma ConfirmAlone(s: State, job: JobId, items: seq<Item>)
    requires Idle(s) && job !in s.jobs
    ensures Alone(s, Confirm(job, items)) ==
            if items == [] || exists k :: 0 <= k < |items| && items[k].doc !in s.docs then s
            else
              var ordered := set k | 0 <= k < |items| :: items[k].doc;
              s.(jobs := s.jobs[job := Moved(NewJob(items), PrintEligible, Confirmation)],
                 docs := map doc | doc in s.docs :: if doc in ordered then false else s.docs[doc])
  {
    hide Moved, WithHandler, Settle;
    if items == [] || exists k :: 0 <= k < |items| && items[k].doc !in s.docs {
      SettleIdle(s, MAX_WRITES);
    } else {
      var ordered := set k | 0 <= k < |items| :: items[k].doc;
      var row := Moved(NewJob(items), PrintEligible, Confirmation);
      var t := s.(docs := map doc | doc in s.docs :: if doc in ordered then false else s.docs[doc]);
      SettleOne(WithJob(t, job, NewJob(items)), MakeEligible(job), MAX_WRITES);
      IdleRow(t, job, NewJob(items));
      SettleIdle(WithJob(t, job, row), MAX_WRITES - 1);
    }
  }

  lemma IdleRow(s: State, job: JobId, row: Job)
    requires Idle(s)
    ensures var t := WithJob(s, job, row);
            && Idle(t) && job in t.jobs && t.jobs[job] == row
            && (forall other :: WithJob(t, job, other) == WithJob(s, job, other))
  {
    forall other ensures WithJob(WithJob(s, job, row), job, other) == WithJob(s, job, other) {
      assert s.jobs[job := row][job := other] == s.jobs[job := other];
    }
  }

  lemma DispatchAlone(s: State, job: JobId, connected: bool)
    requires Idle(s)
    ensures Alone(s, DispatchRead(job, connected)) ==
            if !Live(s, job) || s.jobs[job].dispatches == 0 then s
            else
              var row := s.jobs[job].(dispatches := s.jobs[job].dispatches - 1);
              var tried := WithJob(s, job, row);
              if row.status != Queued then tried
              else if row.printer.None? || !connected then WithJob(s, job, Moved(row, AgentOffline, Dispatch))
              else tried.(payloads := s.payloads + {PayloadOf(s, job, row.printer.value)})
  {
    hide Moved, WithHandler, WithJob, Settle;
    if Live(s, job) && s.jobs[job].dispatches > 0 {
      var row := s.jobs[job].(dispatches := s.jobs[job].dispatches - 1);
      var tried := WithJob(s, job, row);
      IdleRow(s, job, row);
      if row.status == Queued && (row.printer.None? || !connected) {
        SettleOne(tried, GoOffline(job), MAX_WRITES);
        IdleRow(s, job, Moved(row, AgentOffline, Dispatch));
        SettleIdle(WithJob(s, job, Moved(row, AgentOffline, Dispatch)), MAX_WRITES - 1);
      } else {
        SettleIdle(DispatchAttempt(s, job, connected), MAX_WRITES);
      }
    } else {
      SettleIdle(s, MAX_WRITES);
    }
  }

  /** A printed order that still has to go on to retention. */
  lemma RetainAlone(s: State, job: JobId, ack: Option<Report>, writes: nat)
    requires Idle(s) && job in s.jobs && writes > 0
    ensures Settle(WithHandler(s, Retain(job, ack)), writes) ==
            if CasWins(s.jobs[job], Printed, RetentionPending)
            then Acknowledge(WithJob(s, job, Moved(s.jobs[job], RetentionPending, Retention)), ack)
            else s
  {
    hide Moved, WithHandler, WithJob, Settle, CasWins;
    SettleOne(s, Retain(job, ack), writes);
    if CasWins(s.jobs[job], Printed, RetentionPending) {
      var row := Moved(s.jobs[job], RetentionPending, Retention);
      IdleRow(s, job, row);
      SettleIdle(Acknowledge(WithJob(s, job, row), ack), writes - 1);
    }
  }

  lemma ReconcileAlone(s: State, job: JobId, printed: bool)
    requires Idle(s)
    ensures Alone(s, ReconcileRead(job, printed)) ==
            if !Live(s, job) || s.jobs[job].status != PrintUnknown then s
            else if printed then
              WithJob(s, job, Moved(Moved(s.jobs[job], Printed, Shopkeeper), RetentionPending, Retention))
            else WithJob(s, job, Moved(s.jobs[job], PrintFailed, Shopkeeper))
  {
    hide WithHandler, WithJob, Settle;
    if Live(s, job) && s.jobs[job].status == PrintUnknown {
      SettleOne(s, Resolve(job, printed), MAX_WRITES);
      var row := Moved(s.jobs[job], if printed then Printed else PrintFailed, Shopkeeper);
      IdleRow(s, job, row);
      if printed {
        RetainAlone(WithJob(s, job, row), job, None, MAX_WRITES - 1);
      } else {
        SettleIdle(WithJob(s, job, row), MAX_WRITES - 1);
      }
    } else {
      SettleIdle(s, MAX_WRITES);
    }
  }

  lemma SameRow(s: State, job: JobId)
    requires job in s.jobs
    ensures WithJob(s, job, s.jobs[job]) == s
  {
    assert s.jobs[job := s.jobs[job]] == s.jobs;
  }

  function AfterReport(s: State, job: JobId, row: Job, r: Report): State {
    var moved := MovedOn(row, r);
    if moved.Some? then Acknowledge(WithJob(s, job, moved.value), Some(r)) else WithJob(s, job, row)
  }

  lemma MoveAlone(s: State, job: JobId, r: Report, writes: nat)
    requires Idle(s) && Live(s, job) && s.jobs[job].status != Target(r.kind) && writes >= 2
    ensures Settle(WithHandler(s, ReportMove(job, r, s.jobs[job].status)), writes) == AfterReport(s, job, s.jobs[job], r)
  {
    hide Moved, WithHandler, WithJob, Settle;
    var row, to := s.jobs[job], Target(r.kind);
    SettleOne(s, ReportMove(job, r, row.status), writes);
    SameRow(s, job);
    if CanTransition(row.status, to) {
      var moved := Moved(row, to, AgentReport(r.run));
      IdleRow(s, job, moved);
      StatusMoved(row, to, AgentReport(r.run));
      var t := WithJob(s, job, moved);
      if to == Printed {
        RetainAlone(t, job, Some(r), writes - 1);
      } else {
        SettleIdle(Acknowledge(t, Some(r)), writes - 1);
      }
    }
  }

  lemma StatusMoved(row: Job, to: JobStatus, cause: Cause)
    ensures Moved(row, to, cause).status == to && Moved(row, to, cause).cleared == row.cleared
  {
  }

  lemma PickupAlone(s: State, job: JobId, r: Report)
    requires Idle(s) && Live(s, job) && s.jobs[job].status == AgentOffline && Target(r.kind) != PrintFailed
    ensures Settle(WithHandler(s, ReportPickup(job, r)), MAX_WRITES) == AfterReport(s, job, PickedUp(s.jobs[job], r), r)
  {
    hide Moved, WithHandler, WithJob, Settle, AfterReport;
    var picked := PickedUp(s.jobs[job], r);
    SettleOne(s, ReportPickup(job, r), MAX_WRITES);
    StatusMoved(s.jobs[job], Queued, Pickup(r.run));
    IdleRow(s, job, picked);
    MoveAlone(WithJob(s, job, picked), job, r, MAX_WRITES - 1);
    AfterReportTwice(s, job, picked, r);
  }

  lemma AfterReportTwice(s: State, job: JobId, row: Job, r: Report)
    requires Idle(s)
    ensures AfterReport(WithJob(s, job, row), job, row, r) == AfterReport(s, job, row, r)
  {
    hide Moved, WithJob;
    IdleRow(s, job, row);
  }

  lemma DeliverAlone(s: State, r: Report)
    requires Idle(s) && r in s.sent && r.run in s.runs
    ensures var p := s.runs[r.run].payload;
            Alone(s, Deliver(r)) ==
            if !Live(s, p.job) || s.jobs[p.job].printer != Some(p.printer) then s
            else AfterReport(s, p.job, PickedUp(s.jobs[p.job], r), r)
  {
    hide WithHandler, Settle;
    var p := s.runs[r.run].payload;
    if !Live(s, p.job) || s.jobs[p.job].printer != Some(p.printer) {
      SettleIdle(s, MAX_WRITES);
    } else {
      var row, to := s.jobs[p.job], Target(r.kind);
      if row.status == AgentOffline && to != PrintFailed {
        PickupAlone(s, p.job, r);
      } else if row.status != to {
        MoveAlone(s, p.job, r, MAX_WRITES);
      } else if to == Printed {
        RetainAlone(s, p.job, Some(r), MAX_WRITES);
      } else {
        SameRow(s, p.job);
        SettleIdle(Acknowledge(s, Some(r)), MAX_WRITES);
      }
    }
  }

  lemma StaleAlone(s: State, job: JobId)
    requires Idle(s) && Live(s, job) && s.jobs[job].status == Printing
    ensures Alone(s, StaleRead(job)) == WithJob(s, job, Moved(s.jobs[job], PrintUnknown, StaleSweep))
  {
    hide Moved, WithHandler, WithJob, Settle;
    var row := Moved(s.jobs[job], PrintUnknown, StaleSweep);
    SettleOne(s, FlagStale(job), MAX_WRITES);
    IdleRow(s, job, row);
    SettleIdle(WithJob(s, job, row), MAX_WRITES - 1);
  }
}
