/** What every step of every history writes to the event log of every run. */
module QueueLogs {
  import opened Common
  import opened RetryPolicies
  import opened RunQueue
  import opened QueueInvariant
  import opened QueueLifecycle
  import opened QueueExclusion
  import opened QueueOutcomes
  import opened QueueTables

  function KindsOf(es: seq<Event>): seq<EventKind> { seq(|es|, i requires 0 <= i < |es| => es[i].kind) }

  // ---------------------------------------------------------------- the table

  function OnlyIf(b: bool, kind: EventKind): seq<EventKind> { if b then [kind] else [] }

  /** What a worker's report adds to the log of its run. */
  ghost function LoggedByFinish(db: DB, id: Id, x: Execution): seq<EventKind>
    requires Has(db, id)
  {
    var s, s' := db.runs[id].status, StatusAfterFinish(db, id, x);
    if x.cancelled then OnlyIf(s == Queued || s == Running, EvCancelled)
    else
      OnlyIf(x.sanitized, EvStdoutSanitized)
      + if s != Running then []
        else if s' == Done then OnlyIf(x.stdoutTruncated, EvStdoutTruncated) + [EvCompleted]
        else if s' == Failed then OnlyIf(x.stdoutTruncated, EvStdoutTruncated) + [EvFailed]
        else OnlyIf(s' == Queued, EvRetryScheduled(PolicyWait(db, id)))
  }

  /** The kinds of the rows a step adds to the log of an existing run. */
  ghost function LoggedBy(db: DB, step: Step, id: Id): seq<EventKind>
    requires Has(db, id)
  {
    var turned := StatusAfter(db, step, id) != db.runs[id].status;
    match step
    case StClaim(_) => OnlyIf(turned, EvClaimed)
    case StFinish(run, x, _, _) => if run == id then LoggedByFinish(db, id, x) else []
    case StFailInfrastructure(_, preparing, _) => OnlyIf(turned, if preparing then EvPrepareFailed else EvFailed)
    case StCancel(_, _) => OnlyIf(turned, EvCancelled)
    case StCancelChain(_, _) => OnlyIf(turned, EvCancelled)
    case StUpdateIssue(_, _, _) => OnlyIf(turned, EvCancelled)
    case StRecoverStale(_, _) => OnlyIf(turned, EvStale)
    case StRecoverOrphans(_) => OnlyIf(turned, EvOrphan)
    case StNote(run, kind) =>
      OnlyIf(run == id && kind in {EvStarting, EvCancelRequested, EvSkillsLoaded, EvStdoutSanitized, EvStdoutTruncated}, kind)
    case _ => []
  }

  // ---------------------------------------------------------------- row-level updates

  /** The log of `id` grows by rows of the given kinds. */
  ghost predicate Logs(events: map<Id, seq<Event>>, events': map<Id, seq<Event>>, id: Id, kinds: seq<EventKind>) {
    id in events && id in events' && KindsOf(events'[id]) == KindsOf(events[id]) + kinds
  }

  lemma AppendedKinds(es: seq<Event>, kind: EventKind)
    ensures KindsOf(AppendEvent(es, kind)) == KindsOf(es) + [kind]
  {
    hide MaxSeq;
  }

  lemma SameLogs(events: map<Id, seq<Event>>, events': map<Id, seq<Event>>, id: Id)
    requires id in events && id in events' && events'[id] == events[id]
    ensures Logs(events, events', id, [])
  {
  }

  lemma LogsThen(a: map<Id, seq<Event>>, b: map<Id, seq<Event>>, c: map<Id, seq<Event>>, id: Id, k: seq<EventKind>, l: seq<EventKind>)
    requires Logs(a, b, id, k) && Logs(b, c, id, l)
    ensures Logs(a, c, id, k + l)
  {
    hide KindsOf;
  }

  lemma RetireLogged(db: DB, ids: set<Id>, status: Status, kind: EventKind, now: int, id: Id)
    requires KeysOK(db) && Has(db, id)
    ensures Logs(db.events, Retire(db, ids, status, kind, now).events, id, OnlyIf(id in ids && IsActive(db.runs[id].status), kind))
  {
    hide AppendEvent, KindsOf, RetireRows;
    if id in ids && IsActive(db.runs[id].status) {
      AppendedKinds(db.events[id], kind);
    } else {
      NothingAdded(db.events[id]);
    }
  }

  lemma NothingAdded(es: seq<Event>)
    ensures KindsOf(es) == KindsOf(es) + []
  {
  }

  lemma WriteLogged(db: DB, run: Id, kind: EventKind, id: Id)
    requires id in db.events
    ensures Logs(db.events, WriteLog(db, run, kind).events, id, OnlyIf(run == id, kind))
  {
    hide AppendEvent, KindsOf;
    AppendedKinds(db.events[id], kind);
    NothingAdded(db.events[id]);
  }

  // ---------------------------------------------------------------- finishes

  lemma FinishDoneLogged(db: DB, run: Id, f: FinishInput, now: int, newId: Id, id: Id)
    requires KeysOK(db) && Has(db, run) && db.runs[run].status == Running && Has(db, id) && id != newId
    ensures Logs(db.events, FinishDone(db, run, f, now, newId).events, id, OnlyIf(run == id, EvCompleted))
  {
    hide FanOut, ChainTarget, AppendEvent, AutoCloses, KindsOf, RetireRows, RetireLogs;
    var o := db.origins[run];
    var done := Retire(db, {run}, Done, EvCompleted, now);
    var chained := DispatchAutoChain(done, run, o, f, now, newId);
    RetireLogged(db, {run}, Done, EvCompleted, now, id);
    assert id in chained.events && chained.events[id] == done.events[id];
    if ChainTarget(done, o, f, now).None? && AutoCloses(db, o.issue) {
    } else {
    }
  }

  lemma CompleteLogged(db: DB, run: Id, f: FinishInput, now: int, newId: Id, id: Id)
    requires KeysOK(db) && Has(db, id) && id != newId
    ensures Logs(db.events, Settle(db, CompleteRunWithReason(db, run, f, now, newId)).events, id,
                 if run != id || db.runs[id].status != Running then []
                 else OnlyIf(f.stdoutTruncated, EvStdoutTruncated) + [if FinishStatus(f) == Done then EvCompleted else EvFailed])
  {
    hide FinishDone, AppendEvent, KindsOf, RetireRows, RetireLogs, FanOut, Logs;
    if Has(db, run) && db.runs[run].status == Running {
      var noted := if f.stdoutTruncated then WriteLog(db, run, EvStdoutTruncated) else db;
      SameLogs(db.events, db.events, id);
      WriteLogged(db, run, EvStdoutTruncated, id);
      var first := OnlyIf(run == id && f.stdoutTruncated, EvStdoutTruncated);
      assert Logs(db.events, noted.events, id, first);
      var db' := Settle(db, CompleteRunWithReason(db, run, f, now, newId));
      if FinishStatus(f) == Done {
        FinishDoneLogged(noted, run, f, now, newId, id);
        LogsThen(db.events, noted.events, db'.events, id, first, OnlyIf(run == id, EvCompleted));
      } else {
        RetireLogged(noted, {run}, Failed, EvFailed, now, id);
        LogsThen(db.events, noted.events, db'.events, id, first, OnlyIf(run == id, EvFailed));
      }
      if run != id {
        assert first + [] == [];
      }
    } else {
      SameLogs(db.events, db.events, id);
    }
  }

  /** The rows of a finish after its note, by the decision it takes. */
  ghost function Outcome(db: DB, id: Id, x: Execution): seq<EventKind>
    requires Has(db, id)
  {
    var s := FinishFate(db, id, x);
    if db.runs[id].status != Running then []
    else if s == Done then OnlyIf(x.stdoutTruncated, EvStdoutTruncated) + [EvCompleted]
    else if s == Failed then OnlyIf(x.stdoutTruncated, EvStdoutTruncated) + [EvFailed]
    else OnlyIf(s == Queued, EvRetryScheduled(DelayOf(db, id)))
  }

  lemma RequeueLogged(db: DB, run: Id, kind: FailureKind, now: int, id: Id)
    requires RescheduleRunForRetry(db, run, kind, now).Ok? && id in db.events && Has(db, run)
    ensures Logs(db.events, RescheduleRunForRetry(db, run, kind, now).value.events, id, OnlyIf(run == id, EvRetryScheduled(DelayOf(db, run))))
  {
    hide QueuedClash, ValidPolicy, ShouldRetry, BackoffSeconds, AppendEvent, KindsOf, Logs;
    var o, r := db.origins[run], db.runs[run];
    var turned := db.(runs := db.runs[run := Requeued(r, now, DelayOf(db, run))]);
    WriteLogged(turned, run, EvRetryScheduled(DelayOf(db, run)), id);
  }

  /** A retry is granted exactly if the finish requeues. */
  lemma GrantIff(db: DB, run: Id, x: Execution, now: int)
    requires Inv(db) && Has(db, run) && db.runs[run].status == Running && !x.cancelled
    ensures WantsRetry(x) && RescheduleRunForRetry(db, run, KindOf(ReasonOf(x)), now).Ok? <==> FinishFate(db, run, x) == Queued
    ensures var retry := RescheduleRunForRetry(db, run, KindOf(ReasonOf(x)), now);
            WantsRetry(x) && retry.Err? && retry.error != StateError <==> FinishFate(db, run, x) == Running
  {
    hide GraphOK, LivesOK, SettingsOK, QueuedClash, ShouldRetry, BackoffSeconds, ValidPolicy, AppendEvent;
    AgentHasPolicy(db, run);
    CleanIsDone(x);
  }

  lemma RetryOrCompleteLogged(db: DB, run: Id, x: Execution, now: int, newId: Id, id: Id)
    requires Inv(db) && Has(db, id) && newId !in db.issued && !x.cancelled
    ensures Logs(db.events, RetryOrComplete(db, run, x, now, newId).events, id, if run == id then Outcome(db, id, x) else [])
  {
    hide GraphOK, LivesOK, SettingsOK, CompleteRunWithReason, RescheduleRunForRetry, Logs, FinishFate, DelayOf;
    SameLogs(db.events, db.events, id);
    if Has(db, run) && db.runs[run].status == Running {
      GrantIff(db, run, x, now);
      CleanIsDone(x);
      FateOfRunning(db, run, x);
      var kind := KindOf(ReasonOf(x));
      if WantsRetry(x) && RescheduleRunForRetry(db, run, kind, now).Ok? {
        RequeueLogged(db, run, kind, now, id);
      } else {
        CompleteLogged(db, run, InputOf(x), now, newId, id);
      }
    } else {
      NothingToFinish(db, run, x, now, newId);
    }
  }

  lemma FateOfRunning(db: DB, run: Id, x: Execution)
    requires Has(db, run) && db.runs[run].status == Running && !x.cancelled
    ensures FinishFate(db, run, x) == Done <==> Clean(x)
    ensures FinishFate(db, run, x) in {Done, Failed, Queued, Running}
  {
    hide QueuedClash, Retryable;
  }

  lemma FinishLogged(db: DB, run: Id, x: Execution, now: int, newId: Id, id: Id)
    requires Inv(db) && Has(db, id) && newId !in db.issued
    ensures Logs(db.events, FinishRun(db, run, x, now, newId).events, id,
                 if run != id then []
                 else if x.cancelled then OnlyIf(IsActive(db.runs[id].status), EvCancelled)
                 else OnlyIf(x.sanitized, EvStdoutSanitized) + Outcome(db, id, x))
  {
    hide GraphOK, LivesOK, SettingsOK, RetryOrComplete, RetireRows, RetireLogs, AppendEvent, Logs, FinishFate, DelayOf;
    SameLogs(db.events, db.events, id);
    if x.cancelled {
      RetireLogged(db, {run}, Cancelled, EvCancelled, now, id);
    } else {
      NoteKeeps(db, run, EvStdoutSanitized);
      var noted := if x.sanitized then Note(db, run, EvStdoutSanitized) else db;
      WriteLogged(db, run, EvStdoutSanitized, id);
      var first := OnlyIf(run == id && x.sanitized, EvStdoutSanitized);
      assert Logs(db.events, noted.events, id, first);
      RetryOrCompleteLogged(noted, run, x, now, newId, id);
      SameFate(db, noted, id, x);
      SameDelay(db, noted, id);
      LogsThen(db.events, noted.events, FinishRun(db, run, x, now, newId).events, id, first, if run == id then Outcome(db, id, x) else []);
      if run != id {
        assert first + [] == [];
      }
    }
  }

  lemma SameDelay(db: DB, noted: DB, id: Id)
    requires Has(db, id) && noted == db.(events := noted.events)
    ensures DelayOf(noted, id) == DelayOf(db, id)
  {
    hide BackoffSeconds;
  }

  lemma FinishTable(db: DB, id: Id, x: Execution)
    requires Inv(db) && Has(db, id)
    ensures LoggedByFinish(db, id, x)
            == if x.cancelled then OnlyIf(IsActive(db.runs[id].status), EvCancelled)
               else OnlyIf(x.sanitized, EvStdoutSanitized) + Outcome(db, id, x)
  {
    hide GraphOK, LivesOK, SettingsOK, FinishFate, StatusAfterFinish, BackoffSeconds, WaitAfter, RowOK, ValidPolicy;
    FinishStatusIs(db, id, x);
    RowAt(db, id);
    RowShape(db.origins[id].maxAttempts, db.runs[id], db.events[id]);
    AgentHasPolicy(db, id);
    WaitIs(db.policies[db.origins[id].agent], db.runs[id].attempt);
  }

  // ---------------------------------------------------------------- the other steps

  lemma FailLogged(db: DB, run: Id, preparing: bool, now: int, id: Id)
    requires KeysOK(db) && Has(db, id)
    ensures Logs(db.events, Settle(db, FailInfrastructureRun(db, run, preparing, now)).events, id,
                 OnlyIf(run == id && IsActive(db.runs[id].status), if preparing then EvPrepareFailed else EvFailed))
  {
    hide RetireRows, RetireLogs, FanOut, Logs, KindsOf;
    SameLogs(db.events, db.events, id);
    RetireLogged(db, {run}, Failed, if preparing then EvPrepareFailed else EvFailed, now, id);
  }

  lemma UpdateLogged(db: DB, issue: Id, status: IssueStatus, now: int, id: Id)
    requires Inv(db) && Has(db, id)
    ensures Logs(db.events, Settle(db, UpdateIssue(db, issue, status, now)).events, id,
                 OnlyIf(Fate(db, StUpdateIssue(issue, status, now), id) != db.runs[id].status, EvCancelled))
  {
    hide LivesOK, LinksOK, DispatchedOnce, RetireRows, RetireLogs, FanOut, Logs, KindsOf;
    SameLogs(db.events, db.events, id);
    RetireLogged(db, RunsOf(db, issue), Cancelled, EvCancelled, now, id);
    assert OriginRefs(db.origins[id], db.homes, db.agents, db.stamp);
    if db.origins[id].issue == issue && db.runs[id].status == Running {
      assert HasRunning(db, issue);
    }
  }

  lemma RetireStepLogged(db: DB, step: Step, id: Id)
    requires Inv(db) && Has(db, id) && IsRetireStep(step)
    ensures Logs(db.events, ApplyRetire(db, step).events, id, LoggedBy(db, step, id))
  {
    hide GraphOK, LivesOK, SettingsOK, RetireRows, RetireLogs, UpdateIssue, FailInfrastructureRun, Logs, StatusAfter, LoggedByFinish, AnyRun, QueuedClash;
    StatusIs(db, step, id);
    SameLogs(db.events, db.events, id);
    match step
    case StFailInfrastructure(run, preparing, now) => FailLogged(db, run, preparing, now, id);
    case StCancel(run, now) => RetireLogged(db, {run}, Cancelled, EvCancelled, now, id);
    case StCancelChain(chain, now) => RetireLogged(db, ChainMembers(db, chain), Cancelled, EvCancelled, now, id);
    case StRecoverStale(ids, now) => RetireLogged(db, RunningOf(db, ids), Cancelled, EvStale, now, id);
    case StRecoverOrphans(now) => RetireLogged(db, RunningOf(db, db.runs.Keys), Cancelled, EvOrphan, now, id);
    case StUpdateIssue(issue, status, now) => UpdateLogged(db, issue, status, now, id);
  }

  lemma EnqueueLogged(db: DB, step: Step, id: Id)
    requires KeysOK(db) && IsEnqueueStep(step) && Has(db, id) && step.newId !in db.issued
    ensures Logs(db.events, ApplyEnqueue(db, step).events, id, [])
  {
    hide QueuedClash, AppendEvent, KindsOf, Logs;
    var events := ApplyEnqueue(db, step).events;
    assert id in events && events[id] == db.events[id];
    SameLogs(db.events, events, id);
  }

  lemma ClaimLogged(db: DB, now: int, id: Id)
    requires Inv(db) && Has(db, id)
    ensures Logs(db.events, ClaimNextRun(db, now).events, id, OnlyIf(ComesFirst(db, now, id), EvClaimed))
  {
    hide GraphOK, LivesOK, SettingsOK, AppendEvent, KindsOf, Logs, ComesFirst, NextRun, Ready;
    ClaimQuery(db, now);
    assert ComesFirst(db, now, id) ==> NextRun(db, now) == Some(id);
    SameLogs(db.events, db.events, id);
    var next := NextRun(db, now);
    if next.Some? && next.value in db.runs {
      var run := next.value;
      WriteLogged(db.(runs := db.runs[run := Started(db.runs[run], now)]), run, EvClaimed, id);
    }
  }

  lemma NoteLogged(db: DB, run: Id, kind: EventKind, id: Id)
    requires KeysOK(db) && Has(db, id)
    ensures Logs(db.events, Note(db, run, kind).events, id,
                 OnlyIf(run == id && kind in {EvStarting, EvCancelRequested, EvSkillsLoaded, EvStdoutSanitized, EvStdoutTruncated}, kind))
  {
    hide AppendEvent, KindsOf, Logs;
    SameLogs(db.events, db.events, id);
    WriteLogged(db, run, kind, id);
  }

  lemma DeleteLogged(db: DB, issue: Id, id: Id)
    requires KeysOK(db) && Has(db, id)
    ensures var db' := Settle(db, DeleteIssue(db, issue));
            id in db'.runs ==> Logs(db.events, db'.events, id, [])
  {
    hide AnyRun, KindsOf, Logs;
    var db' := Settle(db, DeleteIssue(db, issue));
    if DeleteIssue(db, issue).Ok? {}
    if id in db'.runs {
      SameLogs(db.events, db'.events, id);
    }
  }

  lemma StepLogged(db: DB, step: Step, id: Id)
    requires Inv(db) && Fresh(db, step) && Has(db, id) && id in Apply(db, step).runs
    ensures Logs(db.events, Apply(db, step).events, id, LoggedBy(db, step, id))
  {
    hide GraphOK, LivesOK, SettingsOK, Logs, StatusAfterFinish, LoggedByFinish, ComesFirst, NoneRunning, Outcome;
    hide ApplyEnqueue, ApplyRetire, ApplySettings, ClaimNextRun, FinishRun, DeleteIssue, Note;
    if IsEnqueueStep(step) {
      EnqueueLogged(db, step, id);
    } else if IsRetireStep(step) {
      RetireStepLogged(db, step, id);
    } else if IsSettingsStep(step) {
      SettingsSpareQueue(db, step);
      SameLogs(db.events, ApplySettings(db, step).events, id);
    } else {
      match step
      case StClaim(now) =>
        ClaimLogged(db, now, id);
        FirstWaits(db, now, id);
      case StFinish(run, x, now, newId) =>
        FinishLogged(db, run, x, now, newId, id);
        FinishTable(db, id, x);
      case StNote(run, kind) => NoteLogged(db, run, kind, id);
      case StHeartbeat(_, _) => SameLogs(db.events, db.events, id);
      case StDeleteIssue(issue) => DeleteLogged(db, issue, id);
    }
  }

  lemma FirstWaits(db: DB, now: int, id: Id)
    ensures ComesFirst(db, now, id) ==> id in db.runs && db.runs[id].status == Queued
  {
  }

  /** For every run in every step of every history: its log grows by exactly the rows of the table, and by no others. */
  lemma EveryLog(dbs: seq<DB>, steps: seq<Step>, i: nat, id: Id)
    requires IsHistory(dbs, steps) && i < |steps| && Has(dbs[i], id) && id in dbs[i + 1].runs
    ensures id in dbs[i].events && id in dbs[i + 1].events
    ensures KindsOf(dbs[i + 1].events[id]) == KindsOf(dbs[i].events[id]) + LoggedBy(dbs[i], steps[i], id)
  {
    hide Apply, Inv, LoggedBy, KindsOf;
    HistoryInv(dbs, steps, i);
    StepLogged(dbs[i], steps[i], id);
  }

  // ---------------------------------------------------------------- the first row

  lemma EnqueueStarts(db: DB, step: Step)
    requires IsEnqueueStep(step) && step.newId in ApplyEnqueue(db, step).runs && step.newId !in db.runs
    ensures step.newId in ApplyEnqueue(db, step).events
    ensures KindsOf(ApplyEnqueue(db, step).events[step.newId]) == OnlyIf(!step.StCreateIssue? || step.logged, EvQueued)
  {
    hide QueuedClash, MaxSeq;
    AppendedKinds([], EvQueued);
    assert KindsOf([]) + [EvQueued] == [EvQueued];
  }

  lemma ChildStarts(db: DB, run: Id, f: FinishInput, now: int, newId: Id)
    requires Has(db, run) && newId in FinishDone(db, run, f, now, newId).runs && newId !in db.runs
    ensures newId in FinishDone(db, run, f, now, newId).events
    ensures FinishDone(db, run, f, now, newId).events[newId] == AppendEvent([], EvQueued)
  {
    hide FanOut, ChainTarget, AppendEvent, AutoCloses, RetireLogs, RetireRows;
    var o := db.origins[run];
    var done := Retire(db, {run}, Done, EvCompleted, now);
    var chained := DispatchAutoChain(done, run, o, f, now, newId);
    RetireMakesNone(db, {run}, Done, EvCompleted, now, newId);
    if ChainTarget(done, o, f, now).None? && AutoCloses(db, o.issue) {
    } else {
    }
  }

  lemma RetireMakesNone(db: DB, ids: set<Id>, status: Status, kind: EventKind, now: int, id: Id)
    requires id !in db.runs
    ensures id !in Retire(db, ids, status, kind, now).runs
  {
    hide RetireLogs;
  }

  lemma FinishStarts(db: DB, run: Id, x: Execution, now: int, newId: Id)
    requires Inv(db) && newId !in db.issued && newId in FinishRun(db, run, x, now, newId).runs
    ensures newId in FinishRun(db, run, x, now, newId).events
    ensures KindsOf(FinishRun(db, run, x, now, newId).events[newId]) == [EvQueued]
  {
    hide GraphOK, LivesOK, SettingsOK, FinishDone, RescheduleRunForRetry, AppendEvent, RetireRows, RetireLogs, KindsOf, Dispatches, Closes;
    FinishBrings(db, run, x, now, newId);
    DispatchCompletes(db, run, x, now);
    CleanIsDone(x);
    var f := InputOf(x);
    var noted := if x.sanitized then Note(db, run, EvStdoutSanitized) else db;
    var marked := if f.stdoutTruncated then WriteLog(noted, run, EvStdoutTruncated) else noted;
    assert FinishRun(db, run, x, now, newId) == FinishDone(marked, run, f, now, newId);
    ChildStarts(marked, run, f, now, newId);
    FirstKinds();
  }

  lemma FirstKinds()
    ensures KindsOf(AppendEvent([], EvQueued)) == [EvQueued]
  {
    AppendedKinds([], EvQueued);
    assert KindsOf([]) + [EvQueued] == [EvQueued];
  }

  lemma DispatchCompletes(db: DB, run: Id, x: Execution, now: int)
    ensures Dispatches(db, run, x, now) ==> Completes(db, run, x)
  {
  }

  /** The log of a new run starts with one queue event, except that an autopilot rule writes none. */
  lemma EveryFirstLog(dbs: seq<DB>, steps: seq<Step>, i: nat, id: Id)
    requires IsHistory(dbs, steps) && i < |steps| && id !in dbs[i].runs && id in dbs[i + 1].runs
    ensures id in dbs[i + 1].events
    ensures KindsOf(dbs[i + 1].events[id]) == if steps[i].StCreateIssue? && !steps[i].logged then [] else [EvQueued]
  {
    hide Inv, KindsOf, Inserts, InsertedRow;
    hide ApplyEnqueue, ApplyRetire, ApplySettings, ClaimNextRun, FinishRun, DeleteIssue, Note, Heartbeat;
    HistoryInv(dbs, steps, i);
    EveryInsertion(dbs, steps, i, id);
    var step := steps[i];
    if IsEnqueueStep(step) {
      EnqueueStarts(dbs[i], step);
    } else {
      FinishStarts(dbs[i], step.run, step.execution, step.now, step.newId);
    }
  }
}
