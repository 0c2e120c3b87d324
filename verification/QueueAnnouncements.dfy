/** Webhook conservation for issues: one delivery per cancelled issue and one per automatically closed issue. */
module QueueAnnouncements {
  import opened Common
  import opened RetryPolicies
  import opened RunQueue
  import opened QueueInvariant
  import QueueLifecycle
  import opened QueueOutcomes
  import opened QueueTables
  import opened QueueWebhooks

  predicate IsIssueEvent(event: HookEvent) { event == HookIssueDone || event == HookIssueCancelled }

  /** The completion of a run of `ws` closes its issue. */
  ghost predicate ClosesIn(db: DB, step: Step, ws: Id) {
    && step.StFinish? && Has(db, step.run) && db.runs[step.run].status == Running
    && (var x, issue := step.execution, db.origins[step.run].issue;
        && !x.cancelled && !x.timedOut && !x.failed && x.exitCode == 0 && !HandsOver(db, step.run, x, step.now)
        && issue in db.homes && db.homes[issue] == ws && ws in db.workspaces && db.workspaces[ws].autoClose)
  }

  /** A user cancels an issue of `ws` on which nothing runs. */
  ghost predicate CancelsIn(db: DB, step: Step, ws: Id) {
    && step.StUpdateIssue? && step.status == IssueCancelled
    && step.issue in db.homes && db.homes[step.issue] == ws && NoneRunning(db, step.issue)
  }

  ghost predicate Announces(db: DB, step: Step, ws: Id, event: HookEvent) {
    if event == HookIssueDone then ClosesIn(db, step, ws) else CancelsIn(db, step, ws)
  }

  /** The step wrote `n` deliveries of the event for the webhook. */
  ghost predicate Writes(db: DB, db': DB, hook: nat, event: HookEvent, n: nat) {
    CountFor(db'.deliveries, hook, event) == CountFor(db.deliveries, hook, event) + n
  }

  ghost predicate Hears(db: DB, hook: nat, ws: Id, event: HookEvent) {
    hook < |db.webhooks| && Receives(db.webhooks[hook], ws, event)
  }

  lemma QuietWrites(db: DB, db': DB, hook: nat, event: HookEvent)
    requires SameTargets(db.deliveries, db'.deliveries)
    ensures Writes(db, db', hook, event, 0)
  {
    SameTargetsCount(db.deliveries, db'.deliveries, hook, event);
  }

  lemma QuietStepWrites(db: DB, db': DB, hook: nat, event: HookEvent)
    requires QuietStep(db, db')
    ensures Writes(db, db', hook, event, 0)
  {
    hide CountFor, Quiet, SameTargets;
    QuietWrites(db, db', hook, event);
  }

  /** A fan-out to a workspace writes one row for a webhook that hears it there, and none for other events or workspaces. */
  lemma FanOutWrites(db: DB, db': DB, home: Id, fanned: HookEvent, hook: nat, ws: Id, event: HookEvent)
    requires db'.deliveries == db.deliveries + FanOut(db.webhooks, |db.webhooks|, home, fanned)
    requires Hears(db, hook, ws, event)
    ensures Writes(db, db', hook, event, Count(fanned == event && home == ws))
  {
    hide CountFor, FanOut;
    CountSum(db.deliveries, FanOut(db.webhooks, |db.webhooks|, home, fanned), hook, event);
    FanOutCount(db.webhooks, |db.webhooks|, home, fanned, hook, event);
  }

  lemma EndWrites(db: DB, db': DB, id: Id, ended: Status, closes: bool, hook: nat, ws: Id, event: HookEvent)
    requires EndStep(db, db', id, ended, closes) && IsIssueEvent(event) && Hears(db, hook, ws, event)
    ensures Writes(db, db', hook, event, Count(closes && event == HookIssueDone && db.homes[db.origins[id].issue] == ws))
  {
    hide CountFor, FanOut, Quiet;
    var home := db.homes[db.origins[id].issue];
    var ended' := db.(deliveries := db.deliveries + FanOut(db.webhooks, |db.webhooks|, home, EventFor(ended)));
    FanOutWrites(db, ended', home, EventFor(ended), hook, ws, event);
    if closes {
      FanOutWrites(ended', db', home, HookIssueDone, hook, ws, event);
    } else {
      assert db'.deliveries == ended'.deliveries;
    }
  }

  // ---------------------------------------------------------------- every step

  lemma ClosesIff(db: DB, run: Id, x: Execution, now: int, newId: Id, ws: Id)
    requires Inv(db) && Completes(db, run, x)
    ensures ClosesIn(db, StFinish(run, x, now, newId), ws)
            <==> db.homes[db.origins[run].issue] == ws && ChainTarget(db, db.origins[run], InputOf(x), now).None?
                 && AutoCloses(db, db.origins[run].issue)
    ensures db.origins[run].issue in db.homes
  {
    hide GraphOK, LivesOK, SettingsOK, HandsOver, ChainTarget;
    RunningIsNotCancelled(db, run);
    HandsOverIff(db, run, x, now);
  }

  lemma CompletionWrites(db: DB, noted: DB, run: Id, x: Execution, now: int, newId: Id, hook: nat, ws: Id, event: HookEvent)
    requires Inv(db) && Completes(db, run, x) && newId !in db.issued && noted == db.(events := noted.events)
    requires IsIssueEvent(event) && Hears(db, hook, ws, event)
    ensures Writes(db, RetryOrComplete(noted, run, x, now, newId), hook, event, Count(Announces(db, StFinish(run, x, now, newId), ws, event)))
  {
    hide GraphOK, LivesOK, SettingsOK, FinishDone, ChainTarget, RescheduleRunForRetry, EndStep, Hears, CountFor, HandsOver, AppendEvent;
    CleanIsDone(x);
    RunningIsNotCancelled(db, run);
    var f, o := InputOf(x), db.origins[run];
    var marked := if f.stdoutTruncated then WriteLog(noted, run, EvStdoutTruncated) else noted;
    var db' := FinishDone(marked, run, f, now, newId);
    FinishDoneEndStep(marked, run, f, now, newId);
    TargetBefore(db, marked, run, f, now);
    ClosesIff(db, run, x, now, newId, ws);
    var closes := ChainTarget(db, o, f, now).None? && AutoCloses(db, o.issue);
    EndFrame(db, marked, db', run, Done, closes);
    EndWrites(db, db', run, Done, closes, hook, ws, event);
    assert RetryOrComplete(noted, run, x, now, newId) == db';
  }

  lemma NoCompletionWrites(db: DB, run: Id, x: Execution, now: int, newId: Id, hook: nat, ws: Id, event: HookEvent)
    requires Inv(db) && newId !in db.issued && IsIssueEvent(event) && Hears(db, hook, ws, event) && !Clean(x)
    ensures Writes(db, RetryOrComplete(db, run, x, now, newId), hook, event, 0)
  {
    hide GraphOK, LivesOK, SettingsOK, FinishDone, RescheduleRunForRetry, EndStep, Hears, QuietStep, Writes, RetireRows, RetireLogs, FanOut, AppendEvent;
    CleanIsDone(x);
    UnchangedQuiet(db, db);
    QuietStepWrites(db, db, hook, event);
    var retry := RescheduleRunForRetry(db, run, KindOf(ReasonOf(x)), now);
    if retry.Ok? {
      RequeueQuiet(db, run, KindOf(ReasonOf(x)), now);
      QuietStepWrites(db, retry.value, hook, event);
    } else if retry.error == StateError && Has(db, run) && db.runs[run].status == Running {
      RunningIsNotCancelled(db, run);
      var marked := if x.stdoutTruncated then WriteLog(db, run, EvStdoutTruncated) else db;
      var db' := Notify(Retire(marked, {run}, Failed, EvFailed, now), db.origins[run].issue, HookRunFailed);
      FailedEnds(marked, run, EvFailed, now);
      EndFrame(db, marked, db', run, Failed, false);
      EndWrites(db, db', run, Failed, false, hook, ws, event);
    }
  }

  lemma FinishWrites(db: DB, run: Id, x: Execution, now: int, newId: Id, hook: nat, ws: Id, event: HookEvent)
    requires Inv(db) && newId !in db.issued && IsIssueEvent(event) && Hears(db, hook, ws, event)
    ensures Writes(db, FinishRun(db, run, x, now, newId), hook, event, Count(Announces(db, StFinish(run, x, now, newId), ws, event)))
  {
    hide Inv, RetryOrComplete, QuietStep, RetireRows, RetireLogs, AppendEvent, CountFor, HandsOver, FanOut;
    var db' := FinishRun(db, run, x, now, newId);
    if x.cancelled {
      CancelQuiet(db, {run}, EvCancelled, now);
      UnchangedQuiet(db, db);
      QuietStepWrites(db, db', hook, event);
    } else {
      NoteKeeps(db, run, EvStdoutSanitized);
      var noted := if x.sanitized then Note(db, run, EvStdoutSanitized) else db;
      if Completes(db, run, x) {
        CompletionWrites(db, noted, run, x, now, newId, hook, ws, event);
      } else if Clean(x) {
        QueueLifecycle.NothingToFinish(noted, run, x, now, newId);
      } else {
        NoCompletionWrites(noted, run, x, now, newId, hook, ws, event);
      }
    }
  }

  lemma UpdateWrites(db: DB, issue: Id, status: IssueStatus, now: int, hook: nat, ws: Id, event: HookEvent)
    requires IsIssueEvent(event) && Hears(db, hook, ws, event)
    ensures Writes(db, Settle(db, UpdateIssue(db, issue, status, now)), hook, event,
                   Count(Announces(db, StUpdateIssue(issue, status, now), ws, event)))
  {
    hide AnyRun, RetireRows, RetireLogs, FanOut, CountFor, NoneRunning;
    RunningIff(db, issue);
    if issue in db.homes && status == IssueCancelled && !HasRunning(db, issue) {
      FanOutWrites(db, CancelIssue(db, issue, now), db.homes[issue], HookIssueCancelled, hook, ws, event);
    } else {
      assert Settle(db, UpdateIssue(db, issue, status, now)).deliveries == db.deliveries;
    }
  }

  lemma FailWrites(db: DB, run: Id, preparing: bool, now: int, hook: nat, ws: Id, event: HookEvent)
    requires IsIssueEvent(event) && Hears(db, hook, ws, event)
    ensures Writes(db, Settle(db, FailInfrastructureRun(db, run, preparing, now)), hook, event, 0)
  {
    hide RetireRows, RetireLogs, FanOut, CountFor;
    var db' := Settle(db, FailInfrastructureRun(db, run, preparing, now));
    if Has(db, run) && IsActive(db.runs[run].status) && db.origins[run].issue in db.homes {
      FanOutWrites(db, db', db.homes[db.origins[run].issue], HookRunFailed, hook, ws, event);
    } else {
      assert db'.deliveries == db.deliveries;
    }
  }

  lemma RetireStepWrites(db: DB, step: Step, hook: nat, ws: Id, event: HookEvent)
    requires IsRetireStep(step) && IsIssueEvent(event) && Hears(db, hook, ws, event)
    ensures Writes(db, ApplyRetire(db, step), hook, event, Count(Announces(db, step, ws, event)))
  {
    hide RetireRows, RetireLogs, CountFor, NoneRunning, UpdateIssue, FailInfrastructureRun, Hears;
    match step
    case StUpdateIssue(issue, status, now) => UpdateWrites(db, issue, status, now, hook, ws, event);
    case StFailInfrastructure(run, preparing, now) => FailWrites(db, run, preparing, now, hook, ws, event);
    case StCancel(_, _) =>
    case StCancelChain(_, _) =>
    case StRecoverStale(_, _) =>
    case StRecoverOrphans(_) =>
  }

  lemma StepWrites(db: DB, step: Step, hook: nat, ws: Id, event: HookEvent)
    requires Inv(db) && Fresh(db, step) && IsIssueEvent(event) && Hears(db, hook, ws, event)
    ensures Writes(db, Apply(db, step), hook, event, Count(Announces(db, step, ws, event)))
  {
    hide Inv, QuietStep, Writes, Hears, HandsOver, NoneRunning;
    hide ApplyEnqueue, ApplyRetire, ApplySettings, FinishRun, ClaimNextRun, Note, Heartbeat, DeleteIssue;
    if IsEnqueueStep(step) {
      EnqueueStepsQuiet(db, step);
      QuietStepWrites(db, Apply(db, step), hook, event);
    } else if IsRetireStep(step) {
      RetireStepWrites(db, step, hook, ws, event);
    } else if IsSettingsStep(step) {
      SettingsStepsQuiet(db, step);
      QuietStepWrites(db, Apply(db, step), hook, event);
    } else if step.StFinish? {
      FinishWrites(db, step.run, step.execution, step.now, step.newId, hook, ws, event);
    } else {
      OtherStepsQuiet(db, step);
      QuietStepWrites(db, Apply(db, step), hook, event);
    }
  }

  /** How many of the steps from `i` to `j` announce the event in the workspace. */
  ghost function AnnouncedCount(dbs: seq<DB>, steps: seq<Step>, i: nat, j: nat, ws: Id, event: HookEvent): nat
    requires i <= j <= |steps| < |dbs|
    decreases j
  {
    if i == j then 0 else AnnouncedCount(dbs, steps, i, j - 1, ws, event) + Count(Announces(dbs[j - 1], steps[j - 1], ws, event))
  }

  /**
   While a webhook stays enabled and subscribed, its `issue.cancelled` rows grow by exactly one for each issue of the workspace
   that a user cancels, and its `issue.done` rows by exactly one for each that a completion closes.
   */
  lemma {:induction false} DeliveriesMatchClosedIssues(dbs: seq<DB>, steps: seq<Step>, i: nat, j: nat, hook: nat, ws: Id, event: HookEvent)
    requires IsHistory(dbs, steps) && i <= j < |dbs| && IsIssueEvent(event) && Subscribed(dbs, i, j, hook, ws, event)
    ensures CountFor(dbs[j].deliveries, hook, event)
            == CountFor(dbs[i].deliveries, hook, event) + AnnouncedCount(dbs, steps, i, j, ws, event)
    decreases j
  {
    hide Apply, Inv, CountFor, Announces;
    if i < j {
      DeliveriesMatchClosedIssues(dbs, steps, i, j - 1, hook, ws, event);
      HistoryInv(dbs, steps, j - 1);
      StepWrites(dbs[j - 1], steps[j - 1], hook, ws, event);
    }
  }
}
