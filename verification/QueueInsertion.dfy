/** Which rows a transaction may insert, and which tables it leaves alone. */
module QueueInsertion {
  import opened Common
  import opened RetryPolicies
  import opened RunQueue
  import opened QueueInvariant

  predicate IsAutoChain(o: Origin) { o.parent.Some? && o.trigger == Mention }

  /** What the auto-chain guards had established when the row `o` was inserted. */
  ghost predicate LawfulDispatch(db: DB, o: Origin, p: Id) {
    && p in db.origins && p in db.runs && db.runs[p].status == Running
    && o.issue == db.origins[p].issue && o.issue in db.homes && db.homes[o.issue] in db.workspaces && o.agent in db.agents
    && var ws := db.workspaces[db.homes[o.issue]];
    && (if db.agents[o.agent].isMain then o.depth == db.origins[p].depth
        else o.depth == db.origins[p].depth + 1 && db.origins[p].depth < NormalizeMaxDepth(ws.maxDepth))
    && (ws.dailyRunLimit > 0 ==>
          |RecentChainRuns(db.origins, db.homes, db.homes[o.issue], o.enqueuedAt - DAY_SECONDS)| < ws.dailyRunLimit)
  }

  /** The three kinds of rows: chain heads, chain retries and auto-chain dispatches. */
  ghost predicate LawfulInsert(db: DB, o: Origin, issues': map<Id, IssueStatus>) {
    && o.issue in issues'
    && (o.parent.None? ==> o.depth == 0 && issues'[o.issue] == Open)
    && (o.parent.Some? && !IsAutoChain(o) ==>
          o.parent.value in db.origins && o.depth == db.origins[o.parent.value].depth && issues'[o.issue] == Open)
    && (IsAutoChain(o) ==>
          LawfulDispatch(db, o, o.parent.value) && o.issue in db.issues && issues'[o.issue] == db.issues[o.issue])
  }

  /** At most one row is inserted, it is lawful, and no issue moves to another workspace. */
  ghost predicate InsertsLawfully(db: DB, db': DB) {
    && (forall i :: i in db.homes && i in db'.homes ==> db'.homes[i] == db.homes[i])
    && (forall id :: id in db'.origins && id !in db.origins ==> LawfulInsert(db, db'.origins[id], db'.issues))
    && (forall x, y :: x in db'.origins && y in db'.origins && x !in db.origins && y !in db.origins ==> x == y)
  }

  ghost predicate SameRows(db: DB, db': DB) { db'.origins == db.origins && db'.homes == db.homes }

  lemma SameRowsInsert(db: DB, db': DB)
    requires SameRows(db, db')
    ensures InsertsLawfully(db, db')
  {
  }

  /** The guards are asked after the run's row was updated, which they cannot see. */
  lemma GuardsHold(db: DB, id: Id, f: FinishInput, now: int, a: Id)
    requires Has(db, id) && db.runs[id].status == Running
    requires ChainTarget(Retire(db, {id}, Done, EvCompleted, now), db.origins[id], f, now) == Some(a)
    ensures a in db.agents && a in db.policies
    ensures LawfulDispatch(db, ChildOrigin(id, db.origins[id], a, db.agents[a].isMain, now, db.policies[a].maxAttempts), id)
  {
    hide QueuedClash, SeenInChain, RetireRows, RetireLogs;
  }

  lemma ChildInserts(db: DB, db': DB, newId: Id, child: Origin, p: Id)
    requires child.parent == Some(p) && LawfulDispatch(db, child, p) && child.trigger == Mention && child.issue in db.issues
    requires db'.origins == db.origins[newId := child.(born := db.stamp)] && db'.issues == db.issues && db'.homes == db.homes
    ensures InsertsLawfully(db, db')
  {
    assert LawfulDispatch(db, child.(born := db.stamp), p);
  }

  lemma FinishDoneInserts(db: DB, id: Id, f: FinishInput, now: int, newId: Id)
    requires Inv(db) && Has(db, id) && db.runs[id].status == Running
    ensures InsertsLawfully(db, FinishDone(db, id, f, now, newId))
  {
    hide GraphOK, LivesOK, SettingsOK, ChainTarget, InsertsLawfully, LawfulDispatch, RetireRows, RetireLogs;
    RunningIsNotCancelled(db, id);
    var o := db.origins[id];
    var target := ChainTarget(Retire(db, {id}, Done, EvCompleted, now), o, f, now);
    if target.Some? {
      var a := target.value;
      GuardsHold(db, id, f, now, a);
      ChildInserts(db, FinishDone(db, id, f, now, newId), newId,
                   ChildOrigin(id, o, a, db.agents[a].isMain, now, db.policies[a].maxAttempts), id);
    } else {
      SameRowsInsert(db, FinishDone(db, id, f, now, newId));
    }
  }

  lemma CompleteInserts(db: DB, id: Id, f: FinishInput, now: int, newId: Id)
    requires Inv(db)
    ensures InsertsLawfully(db, Settle(db, CompleteRunWithReason(db, id, f, now, newId)))
  {
    hide Inv, FinishDone, InsertsLawfully, RetireRows, RetireLogs, AppendEvent, FanOut;
    if Has(db, id) && db.runs[id].status == Running {
      var noted := if f.stdoutTruncated then WriteLog(db, id, EvStdoutTruncated) else db;
      if FinishStatus(f) == Done {
        WriteLogKeeps(db, id, EvStdoutTruncated);
        FinishDoneInserts(noted, id, f, now, newId);
        InsertFrame(db, noted, FinishDone(noted, id, f, now, newId));
      } else {
        SameRowsInsert(db, Notify(Retire(noted, {id}, Failed, EvFailed, now), db.origins[id].issue, HookRunFailed));
      }
    } else {
      SameRowsInsert(db, db);
    }
  }

  /** Log rows do not matter for insertions. */
  lemma InsertFrame(db: DB, noted: DB, db': DB)
    requires noted == db.(events := noted.events) && InsertsLawfully(noted, db')
    ensures InsertsLawfully(db, db')
  {
    forall id | id in db'.origins && id !in db.origins
      ensures LawfulInsert(db, db'.origins[id], db'.issues)
    {
      assert LawfulInsert(noted, db'.origins[id], db'.issues);
      var o := db'.origins[id];
      if IsAutoChain(o) {
        assert LawfulDispatch(noted, o, o.parent.value);
      }
    }
  }

  lemma RetryOrCompleteInserts(db: DB, id: Id, x: Execution, now: int, newId: Id)
    requires Inv(db)
    ensures InsertsLawfully(db, RetryOrComplete(db, id, x, now, newId))
  {
    hide Inv, InsertsLawfully, CompleteRunWithReason, QueuedClash, ValidPolicy, ShouldRetry, BackoffSeconds, AppendEvent;
    SameRowsInsert(db, db);
    CompleteInserts(db, id, InputOf(x), now, newId);
    var retry := RescheduleRunForRetry(db, id, KindOf(ReasonOf(x)), now);
    if retry.Ok? {
      SameRowsInsert(db, retry.value);
    }
  }

  lemma FinishInserts(db: DB, id: Id, x: Execution, now: int, newId: Id)
    requires Inv(db)
    ensures InsertsLawfully(db, FinishRun(db, id, x, now, newId))
  {
    hide Inv, InsertsLawfully, RetryOrComplete, RetireRows, RetireLogs, AppendEvent;
    if x.cancelled {
      if CancelRunWithReason(db, id, now).Ok? {}
      SameRowsInsert(db, FinishRun(db, id, x, now, newId));
    } else {
      NoteKeeps(db, id, EvStdoutSanitized);
      var noted := if x.sanitized then Note(db, id, EvStdoutSanitized) else db;
      RetryOrCompleteInserts(noted, id, x, now, newId);
      InsertFrame(db, noted, RetryOrComplete(noted, id, x, now, newId));
    }
  }

  lemma EnqueueStepsInsert(db: DB, step: Step)
    requires Inv(db) && IsEnqueueStep(step)
    ensures InsertsLawfully(db, ApplyEnqueue(db, step))
  {
    hide GraphOK, LivesOK, SettingsOK, QueuedClash, LawfulDispatch;
  }

  lemma DeleteInserts(db: DB, issue: Id)
    ensures InsertsLawfully(db, Settle(db, DeleteIssue(db, issue)))
  {
  }

  lemma FailInfrastructureInserts(db: DB, run: Id, preparing: bool, now: int)
    ensures InsertsLawfully(db, Settle(db, FailInfrastructureRun(db, run, preparing, now)))
  {
    hide RetireRows, RetireLogs, FanOut, InsertsLawfully;
    if Has(db, run) && IsActive(db.runs[run].status) && db.origins[run].issue in db.homes {}
    SameRowsInsert(db, Settle(db, FailInfrastructureRun(db, run, preparing, now)));
  }

  lemma UpdateIssueInserts(db: DB, issue: Id, status: IssueStatus, now: int)
    ensures InsertsLawfully(db, Settle(db, UpdateIssue(db, issue, status, now)))
  {
    hide RetireRows, RetireLogs, AnyRun, FanOut, InsertsLawfully;
    if UpdateIssue(db, issue, status, now).Ok? && status == IssueCancelled {
      SameRowsInsert(db, CancelIssue(db, issue, now));
    } else if UpdateIssue(db, issue, status, now).Ok? {
      SameRowsInsert(db, SetIssue(db, issue, status));
    } else {
      SameRowsInsert(db, db);
    }
  }

  lemma RetireStepsInsert(db: DB, step: Step)
    requires IsRetireStep(step)
    ensures InsertsLawfully(db, ApplyRetire(db, step))
  {
    hide RetireRows, RetireLogs, InsertsLawfully, FailInfrastructureRun, UpdateIssue;
    match step
    case StFailInfrastructure(run, preparing, now) => FailInfrastructureInserts(db, run, preparing, now);
    case StUpdateIssue(issue, status, now) => UpdateIssueInserts(db, issue, status, now);
    case StCancel(run, now) =>
      if Has(db, run) && IsActive(db.runs[run].status) {}
      SameRowsInsert(db, Settle(db, CancelRunWithReason(db, run, now)));
    case StCancelChain(chain, now) => SameRowsInsert(db, CancelRunsByChain(db, chain, now));
    case StRecoverStale(ids, now) => SameRowsInsert(db, RecoverStaleRuns(db, ids, now));
    case StRecoverOrphans(now) => SameRowsInsert(db, RecoverOrphanRuns(db, now));
  }

  lemma SettingsStepsInsert(db: DB, step: Step)
    requires IsSettingsStep(step)
    ensures InsertsLawfully(db, ApplySettings(db, step))
  {
    hide ApplySettings, InsertsLawfully;
    SettingsSpareQueue(db, step);
    SameRowsInsert(db, ApplySettings(db, step));
  }

  /** Every transaction inserts lawful rows only and moves no issue to another workspace. */
  lemma StepInserts(db: DB, step: Step)
    requires Inv(db)
    ensures InsertsLawfully(db, Apply(db, step))
  {
    hide Inv, InsertsLawfully, ApplyEnqueue, ApplyRetire, ApplySettings, FinishRun, DeleteIssue, NextRun;
    if IsEnqueueStep(step) {
      EnqueueStepsInsert(db, step);
    } else if IsRetireStep(step) {
      RetireStepsInsert(db, step);
    } else if IsSettingsStep(step) {
      SettingsStepsInsert(db, step);
    } else {
      match step
      case StFinish(run, x, now, newId) => FinishInserts(db, run, x, now, newId);
      case StDeleteIssue(issue) => DeleteInserts(db, issue);
      case StClaim(now) => SameRowsInsert(db, ClaimNextRun(db, now));
      case StNote(run, kind) => SameRowsInsert(db, Note(db, run, kind));
      case StHeartbeat(run, now) => SameRowsInsert(db, Heartbeat(db, run, now));
    }
  }
}
