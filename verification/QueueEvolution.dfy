/** How one transaction may change the runs: the lawful moves of a run's life. */
module QueueEvolution {
  import opened Common
  import opened RetryPolicies
  import opened RunQueue
  import opened QueueInvariant

  /** The moves a transaction can make with a run; a finished run does not move at all. */
  ghost predicate Moves(r: Life, r': Life) {
    || (r' == r.(heartbeatAt := r'.heartbeatAt) && (IsActive(r.status) || r' == r))
    || (r.status == Queued && r'.status == Running && r'.attempt == r.attempt && r'.claimedAt.Some?)
    || (r.status == Running && r'.status == Queued && r'.attempt == r.attempt + 1 && r'.claimedAt.None? && r'.nextRetryAt.Some?)
    || (IsActive(r.status) && !IsActive(r'.status) && r'.attempt == r.attempt && r'.claimedAt == r.claimedAt)
  }

  ghost predicate SameOrigins(o: map<Id, Origin>, o': map<Id, Origin>) {
    forall id :: id in o && id in o' ==> o'[id] == o[id]
  }

  ghost predicate LivesMove(runs: map<Id, Life>, runs': map<Id, Life>) {
    forall id :: id in runs && id in runs' ==> Moves(runs[id], runs'[id])
  }

  /** Only finished runs disappear, and only under their fresh ids do queued runs appear. */
  ghost predicate RowsComeAndGo(runs: map<Id, Life>, issued: set<Id>, runs': map<Id, Life>) {
    && (forall id :: id in runs && id !in runs' ==> !IsActive(runs[id].status))
    && (forall id :: id in runs' && id !in runs ==> id !in issued && runs'[id] == NewLife())
  }

  ghost predicate Evolves(db: DB, db': DB) {
    && db.issued <= db'.issued
    && SameOrigins(db.origins, db'.origins)
    && LivesMove(db.runs, db'.runs)
    && RowsComeAndGo(db.runs, db.issued, db'.runs)
  }

  /** No run starts. */
  ghost predicate NoneStarts(runs: map<Id, Life>, runs': map<Id, Life>) {
    forall id :: id in runs' && runs'[id].status == Running ==> id in runs && runs[id].status == Running
  }

  ghost predicate QuietlyEvolves(db: DB, db': DB) {
    Evolves(db, db') && NoneStarts(db.runs, db'.runs)
  }

  lemma RetireEvolves(db: DB, ids: set<Id>, status: Status, kind: EventKind, now: int)
    requires !IsActive(status)
    ensures QuietlyEvolves(db, Retire(db, ids, status, kind, now))
  {
  }

  lemma EnqueueEvolves(db: DB, id: Id, o: Origin, logged: bool)
    requires KeysOK(db) && id !in db.issued
    ensures QuietlyEvolves(db, Enqueue(db, id, o, logged))
  {
  }

  /** Retiring a run and then inserting a fresh one. */
  lemma RetireEnqueueEvolves(db: DB, ids: set<Id>, status: Status, kind: EventKind, now: int, id: Id, o: Origin)
    requires KeysOK(db) && id !in db.issued && !IsActive(status)
    ensures QuietlyEvolves(db, Enqueue(Retire(db, ids, status, kind, now), id, o, true))
  {
    hide RetireRows, RetireLogs, AppendEvent;
    RetireEvolves(db, ids, status, kind, now);
  }

  ghost predicate SameRuns(db: DB, db': DB) { db'.runs == db.runs && db'.origins == db.origins && db'.issued == db.issued }

  lemma SameRunsEvolve(db: DB, db': DB)
    requires SameRuns(db, db')
    ensures QuietlyEvolves(db, db')
  {
  }

  /** Only the run tables matter. */
  lemma EvolutionFrame(db: DB, db': DB, a: DB, a': DB)
    requires QuietlyEvolves(a, a')
    requires db.runs == a.runs && db.origins == a.origins && db.issued == a.issued
    requires db'.runs == a'.runs && db'.origins == a'.origins && db'.issued == a'.issued
    ensures QuietlyEvolves(db, db')
  {
  }

  lemma FinishDoneEvolves(db: DB, id: Id, f: FinishInput, now: int, newId: Id)
    requires KeysOK(db) && Has(db, id) && newId !in db.issued
    ensures QuietlyEvolves(db, FinishDone(db, id, f, now, newId))
  {
    hide SameOrigins, LivesMove, RowsComeAndGo, NoneStarts;
    var o := db.origins[id];
    var done := Retire(db, {id}, Done, EvCompleted, now);
    var chained := DispatchAutoChain(done, id, o, f, now, newId);
    var target := ChainTarget(done, o, f, now);
    if target.Some? && target.value in db.agents && target.value in db.policies {
      var a := target.value;
      RetireEnqueueEvolves(db, {id}, Done, EvCompleted, now, newId,
                           ChildOrigin(id, o, a, db.agents[a].isMain, now, db.policies[a].maxAttempts));
    } else {
      RetireEvolves(db, {id}, Done, EvCompleted, now);
    }
    EvolutionFrame(db, FinishDone(db, id, f, now, newId), db, chained);
  }

  lemma CompleteEvolves(db: DB, id: Id, f: FinishInput, now: int, newId: Id)
    requires KeysOK(db) && newId !in db.issued
    ensures QuietlyEvolves(db, Settle(db, CompleteRunWithReason(db, id, f, now, newId)))
  {
    hide SameOrigins, LivesMove, RowsComeAndGo, NoneStarts;
    if Has(db, id) && db.runs[id].status == Running {
      var noted := if f.stdoutTruncated then WriteLog(db, id, EvStdoutTruncated) else db;
      if FinishStatus(f) == Done {
        FinishDoneEvolves(noted, id, f, now, newId);
        EvolutionFrame(db, FinishDone(noted, id, f, now, newId), noted, FinishDone(noted, id, f, now, newId));
      } else {
        RetireEvolves(noted, {id}, Failed, EvFailed, now);
        EvolutionFrame(db, Notify(Retire(noted, {id}, Failed, EvFailed, now), db.origins[id].issue, HookRunFailed),
                       noted, Retire(noted, {id}, Failed, EvFailed, now));
      }
    } else {
      SameRunsEvolve(db, db);
    }
  }

  lemma RequeueEvolves(db: DB, id: Id, kind: FailureKind, now: int)
    requires RescheduleRunForRetry(db, id, kind, now).Ok?
    ensures QuietlyEvolves(db, RescheduleRunForRetry(db, id, kind, now).value)
  {
  }

  lemma RetryOrCompleteEvolves(db: DB, id: Id, x: Execution, now: int, newId: Id)
    requires KeysOK(db) && newId !in db.issued
    ensures QuietlyEvolves(db, RetryOrComplete(db, id, x, now, newId))
  {
    hide SameOrigins, LivesMove, RowsComeAndGo, NoneStarts;
    if RescheduleRunForRetry(db, id, KindOf(ReasonOf(x)), now).Ok? {
      RequeueEvolves(db, id, KindOf(ReasonOf(x)), now);
    }
    CompleteEvolves(db, id, InputOf(x), now, newId);
    SameRunsEvolve(db, db);
  }

  lemma FinishEvolves(db: DB, id: Id, x: Execution, now: int, newId: Id)
    requires KeysOK(db) && newId !in db.issued
    ensures QuietlyEvolves(db, FinishRun(db, id, x, now, newId))
  {
    hide SameOrigins, LivesMove, RowsComeAndGo, NoneStarts;
    if x.cancelled {
      RetireEvolves(db, {id}, Cancelled, EvCancelled, now);
      SameRunsEvolve(db, db);
    } else {
      var noted := if x.sanitized then Note(db, id, EvStdoutSanitized) else db;
      RetryOrCompleteEvolves(noted, id, x, now, newId);
      EvolutionFrame(db, RetryOrComplete(noted, id, x, now, newId), noted, RetryOrComplete(noted, id, x, now, newId));
    }
  }

  lemma EnqueueStepsEvolve(db: DB, step: Step)
    requires KeysOK(db) && IsEnqueueStep(step) && step.newId !in db.issued
    ensures QuietlyEvolves(db, ApplyEnqueue(db, step))
  {
    hide QuietlyEvolves, QueuedClash, AppendEvent;
    var db' := ApplyEnqueue(db, step);
    if step.newId in db'.issued {
      EnqueueEvolves(db, step.newId, db'.origins[step.newId], true);
      EvolutionFrame(db, db', db, Enqueue(db, step.newId, db'.origins[step.newId], true));
    } else {
      SameRunsEvolve(db, db');
    }
  }

  lemma FailInfrastructureEvolves(db: DB, run: Id, preparing: bool, now: int)
    ensures QuietlyEvolves(db, Settle(db, FailInfrastructureRun(db, run, preparing, now)))
  {
    hide QuietlyEvolves, RetireRows, RetireLogs;
    if Has(db, run) && IsActive(db.runs[run].status) {
      var failed := Retire(db, {run}, Failed, if preparing then EvPrepareFailed else EvFailed, now);
      RetireEvolves(db, {run}, Failed, if preparing then EvPrepareFailed else EvFailed, now);
      if db.origins[run].issue in db.homes {}
      EvolutionFrame(db, Notify(failed, db.origins[run].issue, HookRunFailed), db, failed);
    } else {
      SameRunsEvolve(db, db);
    }
  }

  lemma UpdateIssueEvolves(db: DB, issue: Id, status: IssueStatus, now: int)
    ensures QuietlyEvolves(db, Settle(db, UpdateIssue(db, issue, status, now)))
  {
    hide QuietlyEvolves, AnyRun, RetireRows, RetireLogs;
    if UpdateIssue(db, issue, status, now).Err? {
      SameRunsEvolve(db, db);
    } else if status == IssueCancelled {
      var idle := Retire(db, RunsOf(db, issue), Cancelled, EvCancelled, now);
      RetireEvolves(db, RunsOf(db, issue), Cancelled, EvCancelled, now);
      EvolutionFrame(db, CancelIssue(db, issue, now), db, idle);
    } else {
      SameRunsEvolve(db, SetIssue(db, issue, status));
    }
  }

  lemma RetireStepsEvolve(db: DB, step: Step)
    requires IsRetireStep(step)
    ensures QuietlyEvolves(db, ApplyRetire(db, step))
  {
    hide QuietlyEvolves, FailInfrastructureRun, UpdateIssue, RetireRows, RetireLogs;
    match step
    case StCancel(run, now) => if Has(db, run) && IsActive(db.runs[run].status) {
        RetireEvolves(db, {run}, Cancelled, EvCancelled, now);
      } else {
        SameRunsEvolve(db, db);
      }
    case StCancelChain(chain, now) => RetireEvolves(db, ChainMembers(db, chain), Cancelled, EvCancelled, now);
    case StRecoverStale(ids, now) => RetireEvolves(db, RunningOf(db, ids), Cancelled, EvStale, now);
    case StRecoverOrphans(now) => RetireEvolves(db, RunningOf(db, db.runs.Keys), Cancelled, EvOrphan, now);
    case StFailInfrastructure(run, preparing, now) => FailInfrastructureEvolves(db, run, preparing, now);
    case StUpdateIssue(issue, status, now) => UpdateIssueEvolves(db, issue, status, now);
  }

  lemma DeleteIssueEvolves(db: DB, issue: Id)
    requires KeysOK(db)
    ensures QuietlyEvolves(db, Settle(db, DeleteIssue(db, issue)))
  {
  }

  lemma NoteEvolves(db: DB, id: Id, kind: EventKind)
    ensures QuietlyEvolves(db, Note(db, id, kind))
  {
    SameRunsEvolve(db, Note(db, id, kind));
  }

  lemma HeartbeatEvolves(db: DB, id: Id, now: int)
    ensures QuietlyEvolves(db, Heartbeat(db, id, now))
  {
    if !(id in db.runs && db.runs[id].status == Running) {
      SameRunsEvolve(db, db);
    }
  }

  lemma SettingsStepsEvolve(db: DB, step: Step)
    requires IsSettingsStep(step)
    ensures QuietlyEvolves(db, ApplySettings(db, step))
  {
    hide ApplySettings, QuietlyEvolves;
    SettingsSpareQueue(db, step);
    SameRunsEvolve(db, ApplySettings(db, step));
  }

  lemma ClaimEvolves(db: DB, now: int)
    ensures Evolves(db, ClaimNextRun(db, now))
    ensures forall id :: id in ClaimNextRun(db, now).runs && ClaimNextRun(db, now).runs[id].status == Running
                         ==> (id in db.runs && db.runs[id].status == Running) || NextRun(db, now) == Some(id)
  {
  }

  /** Every transaction moves runs lawfully, and only a claim starts one. */
  lemma StepEvolves(db: DB, step: Step)
    requires Inv(db) && Fresh(db, step)
    ensures Evolves(db, Apply(db, step))
    ensures !step.StClaim? ==> NoneStarts(db.runs, Apply(db, step).runs)
  {
    hide Evolves, NoneStarts, GraphOK, LivesOK, SettingsOK;
    hide ApplyEnqueue, ApplyRetire, ApplySettings, ClaimNextRun, FinishRun, DeleteIssue, Note, Heartbeat;
    if IsEnqueueStep(step) {
      EnqueueStepsEvolve(db, step);
    } else if IsRetireStep(step) {
      RetireStepsEvolve(db, step);
    } else if IsSettingsStep(step) {
      SettingsStepsEvolve(db, step);
    } else {
      match step
      case StClaim(now) => ClaimEvolves(db, now);
      case StFinish(run, x, now, newId) => FinishEvolves(db, run, x, now, newId);
      case StDeleteIssue(issue) => DeleteIssueEvolves(db, issue);
      case StNote(run, kind) => NoteEvolves(db, run, kind);
      case StHeartbeat(run, now) => HeartbeatEvolves(db, run, now);
    }
  }
}
