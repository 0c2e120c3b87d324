/** Which runs may be active together, and in which order they start. */
module QueueExclusion {
  import opened Common
  import opened RetryPolicies
  import opened RunQueue
  import opened QueueInvariant
  import opened QueueEvolution
  import opened QueueInsertion
  import opened QueueLifecycle
  import opened QueueChains

  /** Never two running runs on one issue. */
  lemma OneRunningRunPerIssue(dbs: seq<DB>, steps: seq<Step>, i: nat, x: Id, y: Id)
    requires IsHistory(dbs, steps) && i < |dbs| && Has(dbs[i], x) && Has(dbs[i], y)
    requires dbs[i].runs[x].status == Running && dbs[i].runs[y].status == Running
    requires dbs[i].origins[x].issue == dbs[i].origins[y].issue
    ensures x == y
  {
    hide Apply, GraphOK, RowsOK, SettingsOK;
    HistoryInv(dbs, steps, i);
  }

  // ---------------------------------------------------------------- serial workspaces

  ghost function RunningIn(db: DB, ws: Id): set<Id> {
    set id | id in db.runs && InWorkspace(db.origins, db.homes, id, ws) && db.runs[id].status == Running
  }

  ghost predicate IsSerial(db: DB, ws: Id) {
    ws in db.workspaces && !db.workspaces[ws].perRunWorktree
  }

  /** Existing rows stay in their workspace. */
  lemma SameWorkspace(db: DB, db': DB, id: Id, ws: Id)
    requires Inv(db) && InsertsLawfully(db, db') && SameOrigins(db.origins, db'.origins)
    requires id in db.origins && InWorkspace(db'.origins, db'.homes, id, ws)
    ensures InWorkspace(db.origins, db.homes, id, ws)
  {
    hide LinksOK, DispatchedOnce, LivesOK, SettingsOK, LawfulInsert;
    assert OriginRefs(db.origins[id], db.homes, db.agents, db.stamp);
  }

  lemma QuietStepRunning(db: DB, db': DB, ws: Id)
    requires Inv(db) && InsertsLawfully(db, db') && SameOrigins(db.origins, db'.origins) && NoneStarts(db.runs, db'.runs)
    ensures RunningIn(db', ws) <= RunningIn(db, ws)
  {
    hide GraphOK, LivesOK, SettingsOK, InsertsLawfully, SameOrigins;
    forall id | id in RunningIn(db', ws)
      ensures id in RunningIn(db, ws)
    {
      SameWorkspace(db, db', id, ws);
    }
  }

  lemma ClaimRunning(db: DB, now: int, ws: Id)
    requires IsSerial(db, ws)
    ensures RunningIn(ClaimNextRun(db, now), ws) <= RunningIn(db, ws) || |RunningIn(ClaimNextRun(db, now), ws)| <= 1
  {
    var next := NextRun(db, now);
    if next.Some? && InWorkspace(db.origins, db.homes, next.value, ws) {
      assert Eligible(db, now, next.value);
      assert RunningIn(db, ws) == {};
      SubsetSize(RunningIn(ClaimNextRun(db, now), ws), {next.value});
    }
  }

  lemma RunningStep(dbs: seq<DB>, steps: seq<Step>, i: nat, ws: Id)
    requires IsHistory(dbs, steps) && i < |steps| && IsSerial(dbs[i], ws)
    ensures |RunningIn(dbs[i + 1], ws)| <= 1 || |RunningIn(dbs[i + 1], ws)| <= |RunningIn(dbs[i], ws)|
  {
    hide Inv, InsertsLawfully, RunningIn, ClaimNextRun, ApplyEnqueue, ApplyRetire, ApplySettings, FinishRun, NoneStarts;
    HistoryEvolves(dbs, steps, i);
    StepInserts(dbs[i], steps[i]);
    if steps[i].StClaim? {
      ClaimRunning(dbs[i], steps[i].now, ws);
      if RunningIn(dbs[i + 1], ws) <= RunningIn(dbs[i], ws) {
        SubsetSize(RunningIn(dbs[i + 1], ws), RunningIn(dbs[i], ws));
      }
    } else {
      QuietStepRunning(dbs[i], dbs[i + 1], ws);
      SubsetSize(RunningIn(dbs[i + 1], ws), RunningIn(dbs[i], ws));
    }
  }

  /** While a workspace does not use per-run worktrees, its running count never exceeds one or what it was at the start. */
  lemma {:induction false} SerialWorkspace(dbs: seq<DB>, steps: seq<Step>, i: nat, j: nat, ws: Id)
    requires IsHistory(dbs, steps) && i <= j < |dbs|
    requires forall k :: i <= k < j ==> IsSerial(dbs[k], ws)
    ensures |RunningIn(dbs[j], ws)| <= 1 || |RunningIn(dbs[j], ws)| <= |RunningIn(dbs[i], ws)|
    decreases j
  {
    hide Apply, RunningIn, IsSerial;
    if i < j {
      SerialWorkspace(dbs, steps, i, j - 1, ws);
      RunningStep(dbs, steps, j - 1, ws);
    }
  }

  // ---------------------------------------------------------------- claim order

  /** Some candidate comes first. */
  lemma {:induction false} FirstOf(db: DB, now: int, ids: set<Id>) returns (first: Id)
    requires ids != {} && forall id :: id in ids ==> id in db.origins && Eligible(db, now, id)
    ensures first in ids
    ensures forall id :: id in ids && id != first ==> Before(db.origins[first], first, db.origins[id], id)
    decreases |ids|
  {
    hide HasRunning, WorkspaceBusy;
    var x :| x in ids;
    first := x;
    if ids != {x} {
      var y := FirstOf(db, now, ids - {x});
      first := if Before(db.origins[x], x, db.origins[y], y) then x else y;
    }
  }

  /** Claiming is work-conserving: nothing is claimed exactly when no run is eligible. */
  lemma NextRunExists(db: DB, now: int)
    ensures NextRun(db, now).None? <==> forall id :: !Eligible(db, now, id)
    ensures NextRun(db, now).Some? ==> IsNext(db, now, NextRun(db, now).value)
  {
    if id :| Eligible(db, now, id) {
      var ids := set x | x in db.runs && Eligible(db, now, x);
      assert id in ids;
      var first := FirstOf(db, now, ids);
      assert IsNext(db, now, first);
    }
  }

  /** The run has waited long enough. */
  ghost predicate MayStartAt(r: Life, now: int) { r.nextRetryAt.Some? ==> r.nextRetryAt.value <= now }

  /**
   The run waits for a worker and nothing holds it back: it is queued and due, no run of its issue is running, and its
   workspace runs nothing either, unless every run there has a worktree of its own.
   */
  ghost predicate Ready(db: DB, now: int, id: Id) {
    && id in db.runs && id in db.origins && db.runs[id].status == Queued && MayStartAt(db.runs[id], now)
    && db.origins[id].issue in db.homes && db.homes[db.origins[id].issue] in db.workspaces
    && (forall x :: x in db.runs && x in db.origins && db.origins[x].issue == db.origins[id].issue ==> db.runs[x].status != Running)
    && (db.workspaces[db.homes[db.origins[id].issue]].perRunWorktree
        || forall x :: (x in db.runs && x in db.origins && db.origins[x].issue in db.homes
                        && db.homes[db.origins[x].issue] == db.homes[db.origins[id].issue])
                       ==> db.runs[x].status != Running)
  }

  /** No ready run was enqueued earlier, or at the same time with a smaller id. */
  ghost predicate ComesFirst(db: DB, now: int, id: Id) {
    && Ready(db, now, id)
    && forall x :: Ready(db, now, x) && x != id ==>
                     || db.origins[id].enqueuedAt < db.origins[x].enqueuedAt
                     || (db.origins[id].enqueuedAt == db.origins[x].enqueuedAt && id < x)
  }

  lemma ReadyIff(db: DB, now: int, id: Id)
    ensures Ready(db, now, id) <==> Eligible(db, now, id)
  {
  }

  lemma ComesFirstIff(db: DB, now: int, id: Id)
    ensures ComesFirst(db, now, id) <==> IsNext(db, now, id)
  {
    hide Ready, Eligible;
    forall x
      ensures Ready(db, now, x) <==> Eligible(db, now, x)
      ensures Eligible(db, now, x) ==> x in db.origins
    {
      ReadyIff(db, now, x);
      EligibleHasRow(db, now, x);
    }
  }

  lemma EligibleHasRow(db: DB, now: int, id: Id)
    ensures Eligible(db, now, id) ==> Has(db, id) && db.runs[id].status == Queued
  {
  }

  /**
   The claim query on the table's columns: it selects the ready run that was enqueued first, the smaller id deciding
   between equal times, and selects nothing exactly when no run is ready.
   */
  lemma ClaimQuery(db: DB, now: int)
    ensures NextRun(db, now).None? <==> forall id :: !Ready(db, now, id)
    ensures forall id: Id :: NextRun(db, now) == Some(id) <==> ComesFirst(db, now, id)
  {
    hide Ready, Eligible, IsNext, ComesFirst;
    NextRunExists(db, now);
    forall id: Id
      ensures Ready(db, now, id) <==> Eligible(db, now, id)
      ensures NextRun(db, now) == Some(id) <==> ComesFirst(db, now, id)
    {
      ReadyIff(db, now, id);
      ComesFirstIff(db, now, id);
      if IsNext(db, now, id) {
        NextIsEligible(db, now, id);
        FirstIsUnique(db, now, id, NextRun(db, now).value);
      }
    }
  }

  lemma NextIsEligible(db: DB, now: int, id: Id)
    requires IsNext(db, now, id)
    ensures Eligible(db, now, id)
  {
  }

  lemma FirstIsUnique(db: DB, now: int, x: Id, y: Id)
    requires IsNext(db, now, x) && IsNext(db, now, y)
    ensures x == y
  {
  }

  /** In a serial workspace a due run is never overtaken: what is claimed was enqueued earlier, or has the smaller id. */
  lemma NoOvertaking(db: DB, now: int, claimed: Id, waiting: Id, ws: Id)
    requires NextRun(db, now) == Some(claimed) && IsSerial(db, ws)
    requires InWorkspace(db.origins, db.homes, claimed, ws) && InWorkspace(db.origins, db.homes, waiting, ws)
    requires Has(db, waiting) && db.runs[waiting].status == Queued && MayStartAt(db.runs[waiting], now) && waiting != claimed
    ensures || db.origins[claimed].enqueuedAt < db.origins[waiting].enqueuedAt
            || (db.origins[claimed].enqueuedAt == db.origins[waiting].enqueuedAt && claimed < waiting)
  {
    assert Eligible(db, now, claimed);
    assert Eligible(db, now, waiting);
  }

  /** A run keeps its place in the claim order through every retry: what it was enqueued with never changes. */
  lemma {:induction false} PlaceIsKept(dbs: seq<DB>, steps: seq<Step>, i: nat, j: nat, id: Id)
    requires IsHistory(dbs, steps) && i <= j < |dbs| && Has(dbs[i], id)
    ensures id in dbs[j].issued && (Has(dbs[j], id) ==> dbs[j].origins[id] == dbs[i].origins[id])
    decreases j
  {
    hide Apply, GraphOK, LivesOK, SettingsOK, LivesMove;
    if i == j {
      HistoryInv(dbs, steps, i);
    } else {
      PlaceIsKept(dbs, steps, i, j - 1, id);
      HistoryEvolves(dbs, steps, j - 1);
    }
  }

  // ---------------------------------------------------------------- closed issues are idle

  /** A cancelled issue has no queued or running run. */
  lemma CancelledIssueIsIdle(dbs: seq<DB>, steps: seq<Step>, i: nat, issue: Id)
    requires IsHistory(dbs, steps) && i < |dbs| && issue in dbs[i].issues && dbs[i].issues[issue] == IssueCancelled
    ensures !HasActive(dbs[i], issue)
  {
    hide Apply, GraphOK, RowsOK, SettingsOK, OneRunningPerIssue, OneQueuedPerIssueAgent;
    HistoryInv(dbs, steps, i);
  }

  ghost predicate DoneIsIdle(db: DB, ws: Id) {
    IdleWhen(db.origins, db.runs, db.issues, IssueDone, db.homes, iset{ws})
  }

  ghost predicate NeverCloses(db: DB, ws: Id) {
    ws in db.workspaces ==> !db.workspaces[ws].autoClose
  }

  /** An issue that became done in this step, and whose workspace does not close issues by itself, has no active run. */
  ghost predicate ClosesIdleOnly(db: DB, db': DB, ws: Id) {
    forall i :: (i in db'.issues && db'.issues[i] == IssueDone && i in db'.homes && db'.homes[i] == ws)
                ==> (i in db.issues && db.issues[i] == IssueDone) || !HasActive(db', i)
  }

  lemma DoneStep(db: DB, db': DB, ws: Id)
    requires Inv(db) && Evolves(db, db') && InsertsLawfully(db, db') && ClosesIdleOnly(db, db', ws) && DoneIsIdle(db, ws)
    requires KeysOK(db')
    ensures DoneIsIdle(db', ws)
  {
    hide GraphOK, LivesOK, SettingsOK;
    forall id | id in db'.origins && id in db'.runs && IsActive(db'.runs[id].status) && db'.origins[id].issue in db'.issues
                && db'.origins[id].issue in db'.homes && db'.homes[db'.origins[id].issue] == ws
      ensures db'.issues[db'.origins[id].issue] != IssueDone
    {
      ActiveIssueIsNotDone(db, db', ws, id);
    }
  }

  lemma ActiveIssueIsNotDone(db: DB, db': DB, ws: Id, id: Id)
    requires Inv(db) && Evolves(db, db') && InsertsLawfully(db, db') && ClosesIdleOnly(db, db', ws) && DoneIsIdle(db, ws)
    requires id in db'.origins && id in db'.runs && IsActive(db'.runs[id].status) && db'.origins[id].issue in db'.issues
    requires db'.origins[id].issue in db'.homes && db'.homes[db'.origins[id].issue] == ws
    ensures db'.issues[db'.origins[id].issue] != IssueDone
  {
    hide LinksOK, DispatchedOnce, LivesOK, SettingsOK;
    var issue := db'.origins[id].issue;
    assert HasActive(db', issue);
    if id in db.origins {
      assert Moves(db.runs[id], db'.runs[id]);
      assert OriginRefs(db.origins[id], db.homes, db.agents, db.stamp);
    } else {
      assert LawfulInsert(db, db'.origins[id], db'.issues);
    }
  }

  lemma UpdateClosesIdleOnly(db: DB, issue: Id, status: IssueStatus, now: int, ws: Id)
    ensures ClosesIdleOnly(db, Settle(db, UpdateIssue(db, issue, status, now)), ws)
  {
    hide RetireRows, RetireLogs, FanOut;
    if UpdateIssue(db, issue, status, now).Ok? {
      if status == IssueCancelled {
      } else if status == IssueDone {
      } else {
      }
    }
  }

  lemma FinishClosesIdleOnly(db: DB, id: Id, x: Execution, now: int, newId: Id, ws: Id)
    requires NeverCloses(db, ws)
    ensures ClosesIdleOnly(db, FinishRun(db, id, x, now, newId), ws)
  {
    hide RetireRows, RetireLogs, FanOut, ChainTarget, RescheduleRunForRetry, AppendEvent, HasActive;
    FinishIssues(db, id, x, now, newId);
  }

  /** A finish touches the status of the run's own issue only, and only by closing it where that is switched on. */
  lemma FinishIssues(db: DB, id: Id, x: Execution, now: int, newId: Id)
    ensures var db' := FinishRun(db, id, x, now, newId);
            db'.homes == db.homes && (db'.issues == db.issues
                                      || (Has(db, id) && AutoCloses(db, db.origins[id].issue)
                                          && db'.issues == db.issues[db.origins[id].issue := IssueDone]))
  {
    hide RetireRows, RetireLogs, FanOut, AppendEvent, RetryOrComplete;
    if x.cancelled {
      if CancelRunWithReason(db, id, now).Ok? {}
    } else if x.sanitized && Has(db, id) {
      RetryOrCompleteIssues(WriteLog(db, id, EvStdoutSanitized), id, x, now, newId);
    } else {
      RetryOrCompleteIssues(db, id, x, now, newId);
    }
  }

  lemma RetryOrCompleteIssues(db: DB, id: Id, x: Execution, now: int, newId: Id)
    ensures var db' := RetryOrComplete(db, id, x, now, newId);
            db'.homes == db.homes && (db'.issues == db.issues
                                      || (Has(db, id) && AutoCloses(db, db.origins[id].issue)
                                          && db'.issues == db.issues[db.origins[id].issue := IssueDone]))
  {
    hide RetireRows, RetireLogs, FanOut, AppendEvent, FinishDone, QueuedClash, ValidPolicy, ShouldRetry, BackoffSeconds, AutoCloses;
    if WantsRetry(x) && RescheduleRunForRetry(db, id, KindOf(ReasonOf(x)), now).Ok? {
    } else if WantsRetry(x) && RescheduleRunForRetry(db, id, KindOf(ReasonOf(x)), now).error != StateError {
    } else if Has(db, id) && db.runs[id].status == Running {
      if InputOf(x).stdoutTruncated {
        CompleteIssues(WriteLog(db, id, EvStdoutTruncated), id, InputOf(x), now, newId);
        AutoClosesFrame(db, WriteLog(db, id, EvStdoutTruncated), db.origins[id].issue);
      } else {
        CompleteIssues(db, id, InputOf(x), now, newId);
      }
    }
  }

  lemma AutoClosesFrame(db: DB, db': DB, issue: Id)
    requires db' == db.(events := db'.events)
    ensures AutoCloses(db', issue) == AutoCloses(db, issue)
  {
  }

  lemma CompleteIssues(db: DB, id: Id, f: FinishInput, now: int, newId: Id)
    requires Has(db, id)
    ensures var failed := Notify(Retire(db, {id}, Failed, EvFailed, now), db.origins[id].issue, HookRunFailed);
            failed.homes == db.homes && failed.issues == db.issues
    ensures var done := FinishDone(db, id, f, now, newId);
            done.homes == db.homes && (done.issues == db.issues
                                       || (AutoCloses(db, db.origins[id].issue)
                                           && done.issues == db.issues[db.origins[id].issue := IssueDone]))
  {
    hide RetireRows, RetireLogs, FanOut, ChainTarget, AppendEvent, AutoCloses, DispatchAutoChain, FinishDone;
    var o := db.origins[id];
    if o.issue in db.homes {}
    FinishDoneIssues(db, id, f, now, newId);
  }

  lemma FinishDoneIssues(db: DB, id: Id, f: FinishInput, now: int, newId: Id)
    requires Has(db, id)
    ensures var done := FinishDone(db, id, f, now, newId);
            done.homes == db.homes && (done.issues == db.issues
                                       || (AutoCloses(db, db.origins[id].issue)
                                           && done.issues == db.issues[db.origins[id].issue := IssueDone]))
  {
    hide RetireRows, RetireLogs, FanOut, ChainTarget, AppendEvent, AutoCloses, DispatchAutoChain;
    var o := db.origins[id];
    var done := Retire(db, {id}, Done, EvCompleted, now);
    DispatchSparesIssues(done, id, o, f, now, newId);
    if ChainTarget(done, o, f, now).None? && AutoCloses(db, o.issue) {
    } else if o.issue in db.homes {
    } else {
    }
  }

  lemma DispatchSparesIssues(db: DB, id: Id, o: Origin, f: FinishInput, now: int, newId: Id)
    ensures var db' := DispatchAutoChain(db, id, o, f, now, newId);
            db'.homes == db.homes && db'.issues == db.issues
  {
    hide ChainTarget, AppendEvent;
    if ChainTarget(db, o, f, now).Some? {}
  }

  lemma EnqueueStepsKeepIssues(db: DB, step: Step, ws: Id)
    requires IsEnqueueStep(step)
    ensures ClosesIdleOnly(db, ApplyEnqueue(db, step), ws)
  {
    hide QueuedClash, AppendEvent, AnyRun;
  }

  lemma RetireStepsKeepIssues(db: DB, step: Step, ws: Id)
    requires IsRetireStep(step) && !step.StUpdateIssue?
    ensures ClosesIdleOnly(db, ApplyRetire(db, step), ws)
  {
    hide RetireRows, RetireLogs, FanOut, AnyRun;
  }

  lemma OtherStepsKeepIssues(db: DB, step: Step, ws: Id)
    requires !step.StFinish? && !step.StUpdateIssue?
    ensures ClosesIdleOnly(db, Apply(db, step), ws)
  {
    hide NextRun, AnyRun, ApplySettings, ApplyRetire, ApplyEnqueue, AppendEvent;
    if IsSettingsStep(step) {
      SettingsSpareQueue(db, step);
    } else if IsRetireStep(step) {
      RetireStepsKeepIssues(db, step, ws);
    } else if IsEnqueueStep(step) {
      EnqueueStepsKeepIssues(db, step, ws);
    }
  }

  lemma StepClosesIdleOnly(db: DB, step: Step, ws: Id)
    requires NeverCloses(db, ws)
    ensures ClosesIdleOnly(db, Apply(db, step), ws)
  {
    hide ClosesIdleOnly, FinishRun, UpdateIssue, NeverCloses;
    if step.StFinish? {
      FinishClosesIdleOnly(db, step.run, step.execution, step.now, step.newId, ws);
    } else if step.StUpdateIssue? {
      UpdateClosesIdleOnly(db, step.issue, step.status, step.now, ws);
    } else {
      OtherStepsKeepIssues(db, step, ws);
    }
  }

  /** In a workspace where auto-close has never been on, a done issue has no queued or running run. */
  lemma {:induction false} DoneIssueIsIdle(dbs: seq<DB>, steps: seq<Step>, i: nat, ws: Id)
    requires IsHistory(dbs, steps) && i < |dbs|
    requires forall k :: 0 <= k < i ==> NeverCloses(dbs[k], ws)
    ensures DoneIsIdle(dbs[i], ws)
  {
    hide Apply, GraphOK, LivesOK, SettingsOK, Evolves, InsertsLawfully, ClosesIdleOnly, NeverCloses;
    if i > 0 {
      DoneIssueIsIdle(dbs, steps, i - 1, ws);
      HistoryEvolves(dbs, steps, i - 1);
      StepInserts(dbs[i - 1], steps[i - 1]);
      StepClosesIdleOnly(dbs[i - 1], steps[i - 1], ws);
      DoneStep(dbs[i - 1], dbs[i], ws);
    }
  }
}
