/** What becomes of every run and every issue in every step, in terms of the transactions' own decisions. */
module QueueOutcomes {
  import opened Common
  import opened RetryPolicies
  import opened RunQueue
  import opened QueueInvariant
  import opened QueueEvolution
  import opened QueueLifecycle
  import opened QueueExclusion

  // ---------------------------------------------------------------- the fate of a run

  /** The execution ended well: it neither timed out nor failed, and its process exited with 0. */
  predicate Clean(x: Execution) { !x.timedOut && !x.failed && x.exitCode == 0 }

  /** What a worker's report makes of its run; only a running run can be completed or retried. */
  ghost function FinishFate(db: DB, id: Id, x: Execution): Status
    requires Has(db, id)
  {
    var r := db.runs[id];
    if !IsActive(r.status) then r.status
    else if x.cancelled then Cancelled
    else if r.status == Queued then Queued
    else if Clean(x) then Done
    else if !Retryable(db, id, x) then Failed
    else if QueuedClash(db.origins, db.runs, db.origins[id].issue, db.origins[id].agent) then Running
    else Queued
  }

  /** The status of a run after a step. */
  ghost function Fate(db: DB, step: Step, id: Id): Status
    requires Has(db, id)
  {
    var o, s := db.origins[id], db.runs[id].status;
    match step
    case StClaim(now) => if IsNext(db, now, id) then Running else s
    case StFinish(run, x, _, _) => if run == id then FinishFate(db, id, x) else s
    case StFailInfrastructure(run, _, _) => if run == id && IsActive(s) then Failed else s
    case StCancel(run, _) => if run == id && IsActive(s) then Cancelled else s
    case StCancelChain(chain, _) => if o.chain == chain && IsActive(s) then Cancelled else s
    case StRecoverStale(ids, _) => if id in ids && s == Running then Cancelled else s
    case StRecoverOrphans(_) => if s == Running then Cancelled else s
    case StUpdateIssue(issue, status, _) =>
      if o.issue == issue && status == IssueCancelled && s == Queued && !HasRunning(db, issue) then Cancelled else s
    case _ => s
  }

  /** The row of a run whose status becomes `s` at `now`. */
  function Turned(r: Life, s: Status, now: int, delay: int): Life {
    if s == r.status then r
    else if s == Running then r.(status := Running, claimedAt := Some(now), heartbeatAt := Some(now))
    else if s == Queued then Life(Queued, None, None, r.finishedAt, r.attempt + 1, Some(now + delay))
    else r.(status := s, finishedAt := Some(now))
  }

  /** The wait the agent's policy schedules after the run's current attempt. */
  function DelayOf(db: DB, id: Id): int
    requires Has(db, id)
  {
    if db.origins[id].agent in db.policies then BackoffSeconds(db.runs[id].attempt, db.policies[db.origins[id].agent]) else 0
  }

  predicate ReadsClock(step: Step) { step.StClaim? || step.StFinish? || step.StHeartbeat? || IsRetireStep(step) }

  /** The row of a run after a step. */
  ghost function RowFate(db: DB, step: Step, id: Id): Life
    requires Has(db, id)
  {
    var r := db.runs[id];
    if !ReadsClock(step) then r
    else if step.StHeartbeat? && step.run == id && r.status == Running then r.(heartbeatAt := Some(step.now))
    else Turned(r, Fate(db, step, id), step.now, DelayOf(db, id))
  }

  /** The step deletes the run together with its issue. */
  ghost predicate Vanishes(db: DB, step: Step, id: Id)
    requires Has(db, id)
  {
    step == StDeleteIssue(db.origins[id].issue) && !HasActive(db, db.origins[id].issue)
  }

  // ---------------------------------------------------------------- finishes

  lemma CleanIsDone(x: Execution)
    ensures FinishStatus(InputOf(x)) == (if Clean(x) then Done else Failed) && WantsRetry(x) == !Clean(x)
  {
  }

  lemma RunningFinish(db: DB, id: Id, x: Execution, now: int, newId: Id)
    requires Has(db, id) && db.runs[id].status == Running && newId != id && !x.cancelled
    requires db.origins[id].agent in db.policies && ValidPolicy(db.policies[db.origins[id].agent])
    ensures var db' := RetryOrComplete(db, id, x, now, newId);
            id in db'.runs && db'.runs[id] == Turned(db.runs[id], FinishFate(db, id, x), now, DelayOf(db, id))
  {
    hide QueuedClash, ShouldRetry, BackoffSeconds, FinishDone, RetireLogs, FanOut, CompleteRunWithReason, AppendEvent, ValidPolicy;
    CleanIsDone(x);
    CompleteEnds(db, id, InputOf(x), now, newId);
  }

  lemma FinishOfOwnRun(db: DB, id: Id, x: Execution, now: int, newId: Id)
    requires Inv(db) && Has(db, id) && newId !in db.issued
    ensures var db' := FinishRun(db, id, x, now, newId);
            id in db'.runs && db'.runs[id] == Turned(db.runs[id], FinishFate(db, id, x), now, DelayOf(db, id))
  {
    hide GraphOK, LivesOK, SettingsOK, QueuedClash, RetryOrComplete, RetireLogs, AppendEvent, Retryable;
    AgentHasPolicy(db, id);
    if !x.cancelled {
      var noted := if x.sanitized then Note(db, id, EvStdoutSanitized) else db;
      SameFate(db, noted, id, x);
      if db.runs[id].status == Running {
        RunningFinish(noted, id, x, now, newId);
      } else {
        NothingToFinish(noted, id, x, now, newId);
      }
    }
  }

  lemma SameFate(db: DB, noted: DB, id: Id, x: Execution)
    requires Has(db, id) && noted == db.(events := noted.events)
    ensures FinishFate(noted, id, x) == FinishFate(db, id, x)
  {
    hide QueuedClash, ShouldRetry;
  }

  /** The row of `id` is the same in both. */
  ghost predicate SameRow(db: DB, db': DB, id: Id) { id in db.runs && id in db'.runs && db'.runs[id] == db.runs[id] }

  lemma FinishDoneSpares(db: DB, run: Id, f: FinishInput, now: int, newId: Id, id: Id)
    requires Has(db, run) && id in db.runs && id != run && id != newId
    ensures SameRow(db, FinishDone(db, run, f, now, newId), id)
  {
    hide RetireLogs, FanOut, ChainTarget, AppendEvent, AutoCloses;
    var o := db.origins[run];
    var done := Retire(db, {run}, Done, EvCompleted, now);
    var chained := DispatchAutoChain(done, run, o, f, now, newId);
    assert SameRow(db, chained, id);
    if ChainTarget(done, o, f, now).None? && AutoCloses(db, o.issue) {
    } else {
    }
  }

  lemma CompleteSpares(db: DB, run: Id, f: FinishInput, now: int, newId: Id, id: Id)
    requires id in db.runs && id != run && id != newId
    ensures SameRow(db, Settle(db, CompleteRunWithReason(db, run, f, now, newId)), id)
  {
    hide RetireLogs, FanOut, AppendEvent, FinishDone;
    if Has(db, run) && db.runs[run].status == Running {
      var noted := if f.stdoutTruncated then WriteLog(db, run, EvStdoutTruncated) else db;
      if FinishStatus(f) == Done {
        FinishDoneSpares(noted, run, f, now, newId, id);
      }
    }
  }

  lemma FinishSpares(db: DB, run: Id, x: Execution, now: int, newId: Id, id: Id)
    requires id in db.runs && id != run && id != newId
    ensures SameRow(db, FinishRun(db, run, x, now, newId), id)
  {
    hide RetireLogs, AppendEvent, CompleteRunWithReason, QueuedClash, ValidPolicy, ShouldRetry, BackoffSeconds;
    if !x.cancelled {
      var noted := if x.sanitized then Note(db, run, EvStdoutSanitized) else db;
      CompleteSpares(noted, run, InputOf(x), now, newId, id);
    }
  }

  // ---------------------------------------------------------------- the other steps

  lemma RetiredFate(db: DB, ids: set<Id>, status: Status, kind: EventKind, now: int, id: Id)
    requires id in db.runs
    ensures id in Retire(db, ids, status, kind, now).runs
    ensures Retire(db, ids, status, kind, now).runs[id]
            == if id in ids && IsActive(db.runs[id].status) then db.runs[id].(status := status, finishedAt := Some(now)) else db.runs[id]
  {
    hide RetireLogs;
  }

  lemma UpdateFate(db: DB, issue: Id, status: IssueStatus, now: int, id: Id)
    requires Inv(db) && Has(db, id)
    ensures id in ApplyRetire(db, StUpdateIssue(issue, status, now)).runs
    ensures ApplyRetire(db, StUpdateIssue(issue, status, now)).runs[id] == RowFate(db, StUpdateIssue(issue, status, now), id)
  {
    hide LivesOK, LinksOK, DispatchedOnce, RetireRows, RetireLogs, FanOut;
    RetiredFate(db, RunsOf(db, issue), Cancelled, EvCancelled, now, id);
    assert OriginRefs(db.origins[id], db.homes, db.agents, db.stamp);
    if db.origins[id].issue == issue && db.runs[id].status == Running {
      assert HasRunning(db, issue);
    }
  }

  lemma FailFate(db: DB, run: Id, preparing: bool, now: int, id: Id)
    requires Has(db, id)
    ensures var db' := Settle(db, FailInfrastructureRun(db, run, preparing, now));
            && id in db'.runs
            && db'.runs[id] == if run == id && IsActive(db.runs[id].status) then db.runs[id].(status := Failed, finishedAt := Some(now))
                               else db.runs[id]
  {
    hide RetireRows, RetireLogs, FanOut;
    RetiredFate(db, {run}, Failed, if preparing then EvPrepareFailed else EvFailed, now, id);
  }

  lemma RetireStepFate(db: DB, step: Step, id: Id)
    requires Inv(db) && Has(db, id) && IsRetireStep(step)
    ensures id in ApplyRetire(db, step).runs && ApplyRetire(db, step).runs[id] == RowFate(db, step, id)
  {
    hide Inv, RetireRows, RetireLogs, FanOut, UpdateIssue, FailInfrastructureRun, QueuedClash, AnyRun, FinishFate;
    match step
    case StFailInfrastructure(run, preparing, now) => FailFate(db, run, preparing, now, id);
    case StCancel(run, now) => RetiredFate(db, {run}, Cancelled, EvCancelled, now, id);
    case StCancelChain(chain, now) => RetiredFate(db, ChainMembers(db, chain), Cancelled, EvCancelled, now, id);
    case StRecoverStale(ids, now) => RetiredFate(db, RunningOf(db, ids), Cancelled, EvStale, now, id);
    case StRecoverOrphans(now) => RetiredFate(db, RunningOf(db, db.runs.Keys), Cancelled, EvOrphan, now, id);
    case StUpdateIssue(issue, status, now) => UpdateFate(db, issue, status, now, id);
  }

  lemma EnqueueSpares(db: DB, step: Step, id: Id)
    requires IsEnqueueStep(step) && id in db.runs && id != step.newId
    ensures SameRow(db, ApplyEnqueue(db, step), id)
  {
    hide QueuedClash, AppendEvent;
  }

  lemma ClaimFate(db: DB, now: int, id: Id)
    requires Has(db, id)
    ensures id in ClaimNextRun(db, now).runs
    ensures ClaimNextRun(db, now).runs[id] == RowFate(db, StClaim(now), id)
  {
    hide AppendEvent, Eligible;
    NextRunExists(db, now);
    if IsNext(db, now, id) {
      EligibleHasRow(db, now, id);
      FirstIsUnique(db, now, id, NextRun(db, now).value);
    }
  }

  lemma DeleteFate(db: DB, issue: Id, id: Id)
    requires Inv(db) && Has(db, id)
    ensures var db' := Settle(db, DeleteIssue(db, issue));
            && (id in db'.runs <==> !Vanishes(db, StDeleteIssue(issue), id))
            && (id in db'.runs ==> db'.runs[id] == db.runs[id])
  {
    hide LivesOK, LinksOK, DispatchedOnce, AnyRun;
    assert OriginRefs(db.origins[id], db.homes, db.agents, db.stamp);
    if DeleteIssue(db, issue).Ok? {}
  }

  /** Steps that cannot touch the row, and a finish or heartbeat of its own. */
  lemma QuietRow(db: DB, step: Step, id: Id)
    requires Has(db, id)
    ensures !ReadsClock(step) ==> RowFate(db, step, id) == db.runs[id]
    ensures step.StFinish? ==>
              RowFate(db, step, id)
              == if step.run == id then Turned(db.runs[id], FinishFate(db, id, step.execution), step.now, DelayOf(db, id)) else db.runs[id]
    ensures step.StHeartbeat? ==>
              RowFate(db, step, id) == if step.run == id && db.runs[id].status == Running then db.runs[id].(heartbeatAt := Some(step.now)) else db.runs[id]
  {
    hide FinishFate, DelayOf, IsNext, HasRunning;
  }

  /** The row goes or turns as the decisions say. */
  ghost predicate FateHolds(db: DB, db': DB, step: Step, id: Id)
    requires Has(db, id)
  {
    && (id in db'.runs <==> !Vanishes(db, step, id))
    && (id in db'.runs ==> db'.runs[id] == RowFate(db, step, id))
  }

  lemma StaysWith(db: DB, db': DB, step: Step, id: Id)
    requires Has(db, id) && !step.StDeleteIssue? && id in db'.runs && db'.runs[id] == RowFate(db, step, id)
    ensures FateHolds(db, db', step, id)
  {
    hide RowFate;
  }

  lemma DeleteHolds(db: DB, issue: Id, id: Id)
    requires Inv(db) && Has(db, id)
    ensures FateHolds(db, Settle(db, DeleteIssue(db, issue)), StDeleteIssue(issue), id)
  {
    hide Inv, DeleteIssue, HasActive;
    DeleteFate(db, issue, id);
  }

  lemma OtherHolds(db: DB, step: Step, id: Id)
    requires Inv(db) && Fresh(db, step) && Has(db, id) && !IsEnqueueStep(step) && !IsRetireStep(step) && !IsSettingsStep(step)
    ensures FateHolds(db, Apply(db, step), step, id)
  {
    hide Inv, RowFate, FateHolds, FinishFate, DelayOf, Turned, ApplyEnqueue, ApplyRetire, ApplySettings, ClaimNextRun, FinishRun, DeleteIssue, Note, Heartbeat;
    QuietRow(db, step, id);
    match step
    case StClaim(now) =>
      ClaimFate(db, now, id);
      StaysWith(db, Apply(db, step), step, id);
    case StFinish(run, x, now, newId) =>
      if run == id {
        FinishOfOwnRun(db, id, x, now, newId);
      } else {
        NewIdIsOther(db, newId, id);
        FinishSpares(db, run, x, now, newId, id);
      }
      StaysWith(db, Apply(db, step), step, id);
    case StDeleteIssue(issue) => DeleteHolds(db, issue, id);
    case StNote(run, kind) =>
      NoteSpares(db, run, kind, id);
      StaysWith(db, Apply(db, step), step, id);
    case StHeartbeat(run, now) =>
      HeartbeatRow(db, run, now, id);
      StaysWith(db, Apply(db, step), step, id);
  }

  lemma NewIdIsOther(db: DB, newId: Id, id: Id)
    requires Inv(db) && newId !in db.issued && Has(db, id)
    ensures newId != id
  {
    hide GraphOK, LivesOK, SettingsOK;
  }

  lemma StepFate(db: DB, step: Step, id: Id)
    requires Inv(db) && Fresh(db, step) && Has(db, id)
    ensures FateHolds(db, Apply(db, step), step, id)
  {
    hide Inv, RowFate, FateHolds, ApplyEnqueue, ApplyRetire, ApplySettings, ClaimNextRun, FinishRun, DeleteIssue, Note, Heartbeat;
    if IsEnqueueStep(step) {
      NewIdIsOther(db, step.newId, id);
      EnqueueSpares(db, step, id);
      QuietRow(db, step, id);
      StaysWith(db, Apply(db, step), step, id);
    } else if IsRetireStep(step) {
      RetireStepFate(db, step, id);
      StaysWith(db, Apply(db, step), step, id);
    } else if IsSettingsStep(step) {
      SettingsSpareQueue(db, step);
      QuietRow(db, step, id);
      StaysWith(db, Apply(db, step), step, id);
    } else {
      OtherHolds(db, step, id);
    }
  }

  lemma NoteSpares(db: DB, run: Id, kind: EventKind, id: Id)
    requires id in db.runs
    ensures SameRow(db, Note(db, run, kind), id)
  {
    hide AppendEvent;
  }

  lemma HeartbeatRow(db: DB, run: Id, now: int, id: Id)
    requires id in db.runs
    ensures id in Heartbeat(db, run, now).runs
    ensures Heartbeat(db, run, now).runs[id]
            == if run == id && db.runs[id].status == Running then db.runs[id].(heartbeatAt := Some(now)) else db.runs[id]
  {
    if run in db.runs && db.runs[run].status == Running {
      if run == id {}
    }
  }

  // ---------------------------------------------------------------- the fate of an issue

  /** The step completes the run as done. */
  predicate Completes(db: DB, run: Id, x: Execution) {
    Has(db, run) && db.runs[run].status == Running && !x.cancelled && Clean(x)
  }

  /** A completion dispatches a child exactly if the chain guards, asked in the state before it, find a target. */
  ghost predicate Dispatches(db: DB, run: Id, x: Execution, now: int) {
    Completes(db, run, x) && ChainTarget(db, db.origins[run], InputOf(x), now).Some?
  }

  ghost predicate Closes(db: DB, run: Id, x: Execution, now: int, issue: Id) {
    Completes(db, run, x) && db.origins[run].issue == issue && !Dispatches(db, run, x, now) && AutoCloses(db, issue)
  }

  /** The status of an issue after a step. */
  ghost function IssueFate(db: DB, step: Step, issue: Id): IssueStatus
    requires issue in db.issues && issue in db.homes
  {
    var s := db.issues[issue];
    match step
    case StUpdateIssue(i, status, _) =>
      if i != issue || (status == IssueDone && HasActive(db, issue)) || (status == IssueCancelled && HasRunning(db, issue)) then s
      else status
    case StComment(i, agent, _, _) =>
      if i == issue && AgentAt(db, agent, db.homes[issue]) && !QueuedClash(db.origins, db.runs, issue, agent) then Open else s
    case StRerun(i, agent, _, _) =>
      if i == issue && AgentAt(db, agent, db.homes[issue]) && !QueuedClash(db.origins, db.runs, issue, agent) then Open else s
    case StRetryChain(last, _, _) =>
      if Has(db, last) && db.runs[last].status == Failed && db.origins[last].issue == issue
         && !QueuedClash(db.origins, db.runs, issue, db.origins[last].agent) then Open else s
    case StFinish(run, x, now, _) => if Closes(db, run, x, now, issue) then IssueDone else s
    case _ => s
  }

  /** The guards cannot see that the run they are asked for has just been completed. */
  lemma TargetBefore(db: DB, noted: DB, run: Id, f: FinishInput, now: int)
    requires Has(db, run) && db.runs[run].status == Running && noted == db.(events := noted.events)
    ensures ChainTarget(Retire(noted, {run}, Done, EvCompleted, now), db.origins[run], f, now) == ChainTarget(db, db.origins[run], f, now)
  {
    hide RetireLogs, SeenInChain, RecentChainRuns;
    ClashBefore(db, run, now);
  }

  lemma ClashBefore(db: DB, run: Id, now: int)
    requires Has(db, run) && db.runs[run].status == Running
    ensures forall i, a :: QueuedClash(db.origins, RetireRows(db.runs, {run}, Done, now), i, a) == QueuedClash(db.origins, db.runs, i, a)
  {
  }

  lemma TargetHasPolicy(db: DB, o: Origin, f: FinishInput, now: int)
    ensures var t := ChainTarget(db, o, f, now);
            t.Some? ==> t.value in db.agents && t.value in db.policies
  {
    hide QueuedClash, SeenInChain, RecentChainRuns;
  }

  /** `db` has a fresh queued run under `id` with the given columns. */
  ghost predicate NewRow(db: DB, id: Id, o: Origin) {
    id in db.origins && id in db.runs && db.origins[id] == o && db.runs[id] == Life(Queued, None, None, None, 1, None)
  }

  /** The row of a child of `run` for the agent `a`: main agents stay at the parent's depth. */
  function ChildRow(db: DB, run: Id, a: Id, now: int): Origin
    requires Has(db, run)
  {
    var o := db.origins[run];
    var isMain := a in db.agents && db.agents[a].isMain;
    Origin(o.issue, a, Mention, Some(run), o.chain, if isMain then o.depth else o.depth + 1, now,
           if a in db.policies then db.policies[a].maxAttempts else 0, db.stamp)
  }

  lemma FinishDoneBrings(db: DB, noted: DB, run: Id, f: FinishInput, now: int, newId: Id)
    requires Has(db, run) && db.runs[run].status == Running && newId !in db.runs && noted == db.(events := noted.events)
    ensures var o, db' := db.origins[run], FinishDone(noted, run, f, now, newId);
            var target := ChainTarget(db, o, f, now);
            && (newId in db'.runs <==> target.Some?)
            && (target.Some? ==> NewRow(db', newId, ChildRow(db, run, target.value, now)))
            && db'.issues == if target.None? && AutoCloses(db, o.issue) then db.issues[o.issue := IssueDone] else db.issues
  {
    hide RetireLogs, FanOut, ChainTarget, AppendEvent;
    var o := db.origins[run];
    var done := Retire(noted, {run}, Done, EvCompleted, now);
    TargetBefore(db, noted, run, f, now);
    TargetHasPolicy(done, o, f, now);
    DispatchSparesIssues(done, run, o, f, now, newId);
    if ChainTarget(done, o, f, now).None? && AutoCloses(noted, o.issue) {
    } else if o.issue in db.homes {
    } else {
    }
  }

  /** What a finish brings besides the end of its run. */
  ghost predicate Brings(db: DB, db': DB, run: Id, x: Execution, now: int, newId: Id) {
    && (newId in db'.runs <==> Dispatches(db, run, x, now))
    && (Dispatches(db, run, x, now) ==>
          NewRow(db', newId, ChildRow(db, run, ChainTarget(db, db.origins[run], InputOf(x), now).value, now)))
    && db'.issues.Keys == db.issues.Keys
    && forall i :: i in db.issues ==> db'.issues[i] == if Closes(db, run, x, now, i) then IssueDone else db.issues[i]
  }

  lemma SpareBrings(db: DB, db': DB, run: Id, x: Execution, now: int, newId: Id)
    requires !Completes(db, run, x) && db'.issues == db.issues && newId !in db'.runs
    ensures Brings(db, db', run, x, now, newId)
  {
  }

  lemma CompletionBrings(db: DB, noted: DB, run: Id, x: Execution, now: int, newId: Id)
    requires Inv(db) && Completes(db, run, x) && newId !in db.issued && noted == db.(events := noted.events)
    ensures Brings(db, RetryOrComplete(noted, run, x, now, newId), run, x, now, newId)
  {
    hide GraphOK, LivesOK, SettingsOK, FinishDone, ChainTarget, RescheduleRunForRetry, AutoCloses, AppendEvent, NewRow, ChildRow;
    CleanIsDone(x);
    RunningIsNotCancelled(db, run);
    var f := InputOf(x);
    var marked := if f.stdoutTruncated then WriteLog(noted, run, EvStdoutTruncated) else noted;
    FinishDoneBrings(db, marked, run, f, now, newId);
    assert RetryOrComplete(noted, run, x, now, newId) == FinishDone(marked, run, f, now, newId);
  }

  lemma NoCompletionBrings(db: DB, run: Id, x: Execution, now: int, newId: Id)
    requires newId !in db.runs && !Clean(x)
    ensures var db' := RetryOrComplete(db, run, x, now, newId);
            db'.issues == db.issues && newId !in db'.runs
  {
    hide FinishDone, QueuedClash, ValidPolicy, ShouldRetry, BackoffSeconds, AppendEvent, RetireLogs, FanOut;
    CleanIsDone(x);
    var retry := RescheduleRunForRetry(db, run, KindOf(ReasonOf(x)), now);
    if retry.Ok? {
    } else if retry.error != StateError {
    } else if Has(db, run) && db.runs[run].status == Running {
      if InputOf(x).stdoutTruncated {}
      if db.origins[run].issue in db.homes {}
    }
  }

  lemma FinishBrings(db: DB, run: Id, x: Execution, now: int, newId: Id)
    requires Inv(db) && newId !in db.issued
    ensures Brings(db, FinishRun(db, run, x, now, newId), run, x, now, newId)
  {
    hide GraphOK, LivesOK, SettingsOK, Brings, RetryOrComplete, RetireLogs, AppendEvent, Clean;
    var db' := FinishRun(db, run, x, now, newId);
    if x.cancelled {
      SpareBrings(db, db', run, x, now, newId);
    } else {
      var noted := if x.sanitized then Note(db, run, EvStdoutSanitized) else db;
      if Completes(db, run, x) {
        CompletionBrings(db, noted, run, x, now, newId);
      } else {
        if Clean(x) {
          NothingToFinish(noted, run, x, now, newId);
        } else {
          NoCompletionBrings(noted, run, x, now, newId);
        }
        SpareBrings(db, db', run, x, now, newId);
      }
    }
  }

  lemma EnqueueIssueFate(db: DB, step: Step, issue: Id)
    requires Inv(db) && IsEnqueueStep(step) && issue in db.issues && issue in db.homes
    ensures issue in ApplyEnqueue(db, step).issues && ApplyEnqueue(db, step).issues[issue] == IssueFate(db, step, issue)
  {
    hide Inv, CreateIssueWithInitialRun, AddUserComment, RerunIssue, RetryFailedRunInChain, IssueFate;
    match step
    case StCreateIssue(i, ws, agent, logged, now, newId) => CreateIssueFate(db, i, ws, agent, logged, now, newId, issue);
    case StComment(i, agent, now, newId) => MentionIssueFate(db, i, agent, now, newId, issue);
    case StRerun(i, agent, now, newId) => MentionIssueFate(db, i, agent, now, newId, issue);
    case StRetryChain(last, now, newId) => RetryIssueFate(db, last, now, newId, issue);
  }

  lemma CreateIssueFate(db: DB, i: Id, ws: Id, agent: Id, logged: bool, now: int, newId: Id, issue: Id)
    requires issue in db.issues && issue in db.homes
    ensures var db' := Settle(db, CreateIssueWithInitialRun(db, i, ws, agent, logged, now, newId));
            issue in db'.issues && db'.issues[issue] == IssueFate(db, StCreateIssue(i, ws, agent, logged, now, newId), issue)
  {
    hide AppendEvent;
  }

  lemma MentionIssueFate(db: DB, i: Id, agent: Id, now: int, newId: Id, issue: Id)
    requires issue in db.issues && issue in db.homes
    ensures var db' := Settle(db, AddUserComment(db, i, agent, now, newId));
            issue in db'.issues && db'.issues[issue] == IssueFate(db, StComment(i, agent, now, newId), issue)
    ensures var db' := Settle(db, RerunIssue(db, i, agent, now, newId));
            issue in db'.issues && db'.issues[issue] == IssueFate(db, StRerun(i, agent, now, newId), issue)
  {
    hide QueuedClash, AppendEvent;
  }

  lemma RetryIssueFate(db: DB, last: Id, now: int, newId: Id, issue: Id)
    requires Inv(db) && issue in db.issues && issue in db.homes
    ensures var db' := Settle(db, RetryFailedRunInChain(db, last, now, newId));
            issue in db'.issues && db'.issues[issue] == IssueFate(db, StRetryChain(last, now, newId), issue)
  {
    hide LivesOK, LinksOK, DispatchedOnce, QueuedClash, AppendEvent, AnyRun, Closes;
    if Has(db, last) {
      assert OriginRefs(db.origins[last], db.homes, db.agents, db.stamp);
    }
  }

  lemma RetireIssueFate(db: DB, step: Step, issue: Id)
    requires IsRetireStep(step) && issue in db.issues && issue in db.homes
    ensures issue in ApplyRetire(db, step).issues && ApplyRetire(db, step).issues[issue] == IssueFate(db, step, issue)
  {
    hide RetireRows, RetireLogs, FanOut, AnyRun, QueuedClash, Closes, UpdateIssue;
    match step
    case StFailInfrastructure(_, _, _) =>
    case StCancel(_, _) =>
    case StCancelChain(_, _) =>
    case StRecoverStale(_, _) =>
    case StRecoverOrphans(_) =>
    case StUpdateIssue(i, status, now) => UpdateIssueFate(db, i, status, now, issue);
  }

  lemma UpdateIssueFate(db: DB, i: Id, status: IssueStatus, now: int, issue: Id)
    requires issue in db.issues && issue in db.homes
    ensures var db' := Settle(db, UpdateIssue(db, i, status, now));
            issue in db'.issues && db'.issues[issue] == IssueFate(db, StUpdateIssue(i, status, now), issue)
  {
    hide RetireRows, RetireLogs, FanOut, AnyRun, QueuedClash, Closes;
  }

  lemma OtherIssueFate(db: DB, step: Step, issue: Id)
    requires step.StClaim? || step.StNote? || step.StHeartbeat? || step.StDeleteIssue?
    requires issue in db.issues && issue in db.homes
    ensures issue in Apply(db, step).issues <==> !(step == StDeleteIssue(issue) && !HasActive(db, issue))
    ensures issue in Apply(db, step).issues ==> Apply(db, step).issues[issue] == db.issues[issue]
  {
    hide AppendEvent, NextRun, AnyRun;
  }

  lemma StepIssueFate(db: DB, step: Step, issue: Id)
    requires Inv(db) && Fresh(db, step) && issue in db.issues && issue in db.homes
    ensures issue in Apply(db, step).issues <==> !(step == StDeleteIssue(issue) && !HasActive(db, issue))
    ensures issue in Apply(db, step).issues ==> Apply(db, step).issues[issue] == IssueFate(db, step, issue)
  {
    hide Inv, Closes, Dispatches, HasActive, HasRunning, AgentAt, QueuedClash;
    hide ApplyEnqueue, ApplyRetire, ApplySettings, ClaimNextRun, FinishRun, DeleteIssue, Note, Heartbeat;
    if IsEnqueueStep(step) {
      EnqueueIssueFate(db, step, issue);
    } else if IsRetireStep(step) {
      RetireIssueFate(db, step, issue);
    } else if IsSettingsStep(step) {
      SettingsSpareQueue(db, step);
    } else if step.StFinish? {
      FinishBrings(db, step.run, step.execution, step.now, step.newId);
    } else {
      OtherIssueFate(db, step, issue);
    }
  }

  // ---------------------------------------------------------------- births

  predicate HasNewId(step: Step) { IsEnqueueStep(step) || step.StFinish? }

  /** The step inserts a run under its new id. */
  ghost predicate Births(db: DB, step: Step)
    requires HasNewId(step)
  {
    match step
    case StCreateIssue(issue, ws, agent, _, _, _) => ws in db.workspaces && AgentAt(db, agent, ws) && issue !in db.homes
    case StComment(issue, agent, _, _) =>
      issue in db.homes && AgentAt(db, agent, db.homes[issue]) && !QueuedClash(db.origins, db.runs, issue, agent)
    case StRerun(issue, agent, _, _) =>
      issue in db.homes && AgentAt(db, agent, db.homes[issue]) && !QueuedClash(db.origins, db.runs, issue, agent)
    case StRetryChain(last, _, _) =>
      Has(db, last) && db.runs[last].status == Failed && !QueuedClash(db.origins, db.runs, db.origins[last].issue, db.origins[last].agent)
    case StFinish(run, x, now, _) => Dispatches(db, run, x, now)
  }

  /** The columns of the row a step inserts. */
  ghost function Newborn(db: DB, step: Step): Origin
    requires HasNewId(step) && Births(db, step)
  {
    match step
    case StCreateIssue(issue, ws, agent, logged, now, newId) =>
      Origin(issue, agent, if logged then IssueCreated else Autopilot, None, newId, 0, now, db.policies[agent].maxAttempts, db.stamp)
    case StComment(issue, agent, now, newId) =>
      Origin(issue, agent, Mention, None, newId, 0, now, db.policies[agent].maxAttempts, db.stamp)
    case StRerun(issue, agent, now, newId) =>
      Origin(issue, agent, Rerun, None, newId, 0, now, db.policies[agent].maxAttempts, db.stamp)
    case StRetryChain(last, now, newId) =>
      var o := db.origins[last];
      Origin(o.issue, o.agent, Rerun, Some(last), o.chain, o.depth, now,
             if o.agent in db.policies then db.policies[o.agent].maxAttempts else 0, db.stamp)
    case StFinish(run, x, now, _) => ChildRow(db, run, ChainTarget(db, db.origins[run], InputOf(x), now).value, now)
  }

  lemma EnqueueBirths(db: DB, step: Step)
    requires Inv(db) && IsEnqueueStep(step) && step.newId !in db.issued
    ensures step.newId in ApplyEnqueue(db, step).runs <==> Births(db, step)
    ensures Births(db, step) ==> NewRow(ApplyEnqueue(db, step), step.newId, Newborn(db, step))
  {
    hide LivesOK, LinksOK, DispatchedOnce, QueuedClash, AppendEvent, Dispatches, ChildRow;
    if step.StRetryChain? && Has(db, step.last) {
      assert OriginRefs(db.origins[step.last], db.homes, db.agents, db.stamp);
    }
  }

  ghost predicate NoOthers(db: DB, db': DB, ids: set<Id>) { db'.runs.Keys <= db.runs.Keys + ids }

  lemma CompleteNoOthers(db: DB, run: Id, f: FinishInput, now: int, newId: Id)
    ensures NoOthers(db, Settle(db, CompleteRunWithReason(db, run, f, now, newId)), {newId})
  {
    hide RetireLogs, FanOut, FinishDone, AppendEvent;
    if Has(db, run) && db.runs[run].status == Running {
      var noted := if f.stdoutTruncated then WriteLog(db, run, EvStdoutTruncated) else db;
      FinishDoneNoOthers(noted, run, f, now, newId);
      if FinishStatus(f) == Done {
      } else {
      }
    }
  }

  lemma FinishDoneNoOthers(db: DB, run: Id, f: FinishInput, now: int, newId: Id)
    requires Has(db, run)
    ensures NoOthers(db, FinishDone(db, run, f, now, newId), {newId})
  {
    hide RetireLogs, FanOut, ChainTarget, AppendEvent, AutoCloses;
    var o := db.origins[run];
    var done := Retire(db, {run}, Done, EvCompleted, now);
    var chained := DispatchAutoChain(done, run, o, f, now, newId);
    assert NoOthers(db, chained, {newId});
    if ChainTarget(done, o, f, now).None? && AutoCloses(db, o.issue) {
    } else {
    }
  }

  lemma FinishNoOthers(db: DB, run: Id, x: Execution, now: int, newId: Id)
    ensures NoOthers(db, FinishRun(db, run, x, now, newId), {newId})
  {
    hide RetireLogs, AppendEvent, CompleteRunWithReason, QueuedClash, ValidPolicy, ShouldRetry, BackoffSeconds;
    CompleteNoOthers(if x.sanitized then Note(db, run, EvStdoutSanitized) else db, run, InputOf(x), now, newId);
  }

  lemma RetireNoOthers(db: DB, step: Step)
    requires IsRetireStep(step)
    ensures NoOthers(db, ApplyRetire(db, step), {})
  {
    hide RetireLogs, FanOut, AnyRun;
  }

  lemma OtherNoOthers(db: DB, step: Step)
    requires step.StClaim? || step.StNote? || step.StHeartbeat? || step.StDeleteIssue?
    ensures NoOthers(db, Apply(db, step), {})
  {
    hide AppendEvent, NextRun, AnyRun;
  }

  lemma StepNoOthers(db: DB, step: Step)
    ensures NoOthers(db, Apply(db, step), if HasNewId(step) then {step.newId} else {})
  {
    hide ApplyEnqueue, ApplyRetire, ApplySettings, FinishRun, ClaimNextRun, Note, Heartbeat, DeleteIssue;
    if IsEnqueueStep(step) {
      EnqueueNoOthers(db, step);
    } else if IsRetireStep(step) {
      RetireNoOthers(db, step);
    } else if IsSettingsStep(step) {
      SettingsSpareQueue(db, step);
    } else if step.StFinish? {
      FinishNoOthers(db, step.run, step.execution, step.now, step.newId);
    } else {
      OtherNoOthers(db, step);
    }
  }

  lemma EnqueueNoOthers(db: DB, step: Step)
    requires IsEnqueueStep(step)
    ensures NoOthers(db, ApplyEnqueue(db, step), {step.newId})
  {
    hide QueuedClash, AppendEvent;
  }

  lemma StepBirth(db: DB, step: Step, id: Id)
    requires Inv(db) && Fresh(db, step) && id !in db.runs
    ensures id in Apply(db, step).runs <==> HasNewId(step) && id == step.newId && Births(db, step)
    ensures id in Apply(db, step).runs ==> NewRow(Apply(db, step), id, Newborn(db, step))
  {
    hide Inv, Dispatches, AgentAt, QueuedClash, Closes, NewRow, ChainTarget, ChildRow;
    hide ApplyEnqueue, ApplyRetire, ApplySettings, FinishRun, ClaimNextRun, DeleteIssue, Note, Heartbeat;
    StepNoOthers(db, step);
    if IsEnqueueStep(step) {
      EnqueueBirths(db, step);
    } else if step.StFinish? {
      FinishBrings(db, step.run, step.execution, step.now, step.newId);
    }
  }
}
