/** Webhook conservation: one delivery row per finished run, for every history of the queue. */
module QueueWebhooks {
  import opened RetryPolicies
  import opened Common
  import opened RunQueue
  import opened QueueInvariant

  // ---------------------------------------------------------------- counting deliveries

  /** Delivery rows of one webhook for one kind of event. */
  function CountFor(ds: seq<Delivery>, hook: nat, event: HookEvent): nat {
    if ds == [] then 0
    else CountFor(ds[..|ds| - 1], hook, event) + Count(ds[|ds| - 1].hook == hook && ds[|ds| - 1].event == event)
  }

  lemma {:induction false} CountSum(ds: seq<Delivery>, more: seq<Delivery>, hook: nat, event: HookEvent)
    ensures CountFor(ds + more, hook, event) == CountFor(ds, hook, event) + CountFor(more, hook, event)
    decreases |more|
  {
    if more == [] {
      assert ds + more == ds;
    } else {
      assert (ds + more)[..|ds + more| - 1] == ds + more[..|more| - 1];
      CountSum(ds, more[..|more| - 1], hook, event);
    }
  }

  /** A fan-out holds exactly one row for each webhook that receives the event, and no row for any other. */
  lemma {:induction false} FanOutCount(hooks: seq<Webhook>, n: nat, ws: Id, event: HookEvent, hook: nat, asked: HookEvent)
    requires n <= |hooks|
    ensures CountFor(FanOut(hooks, n, ws, event), hook, asked)
            == Count(hook < n && asked == event && hooks[hook].workspace == ws && hooks[hook].enabled
                     && (hooks[hook].events == [] || event in hooks[hook].events))
  {
    if n > 0 {
      FanOutCount(hooks, n - 1, ws, event, hook, asked);
      var last := if Receives(hooks[n - 1], ws, event) then [Delivery(n - 1, event, Pending, 0)] else [];
      CountSum(FanOut(hooks, n - 1, ws, event), last, hook, asked);
      SingleCount(last, hook, asked);
    }
  }

  lemma SingleCount(ds: seq<Delivery>, hook: nat, event: HookEvent)
    requires |ds| <= 1
    ensures CountFor(ds, hook, event) == Count(|ds| == 1 && ds[0].hook == hook && ds[0].event == event)
  {
    if |ds| == 1 {
      assert ds[..0] == [];
    }
  }

  /** Two lists of deliveries of the same events to the same webhooks. */
  ghost predicate SameTargets(ds: seq<Delivery>, ds': seq<Delivery>) {
    |ds| == |ds'| && forall i :: 0 <= i < |ds| ==> ds'[i].hook == ds[i].hook && ds'[i].event == ds[i].event
  }

  lemma {:induction false} SameTargetsCount(ds: seq<Delivery>, ds': seq<Delivery>, hook: nat, event: HookEvent)
    requires SameTargets(ds, ds')
    ensures CountFor(ds', hook, event) == CountFor(ds, hook, event)
    decreases |ds|
  {
    if ds != [] {
      SameTargetsCount(ds[..|ds| - 1], ds'[..|ds'| - 1], hook, event);
    }
  }

  // ---------------------------------------------------------------- counting finished runs

  /** The event that reports a run with this final status. */
  function EventFor(status: Status): HookEvent { if status == Done then HookRunCompleted else HookRunFailed }

  predicate Reported(status: Status) { status == Done || status == Failed }

  /** Runs of a workspace that a step brought to the given status. */
  function Became(db: DB, db': DB, ws: Id, status: Status): set<Id> {
    set id | id in db'.runs && InWorkspace(db'.origins, db'.homes, id, ws) && db'.runs[id].status == status
             && (id in db.runs ==> db.runs[id].status != status)
  }

  /** The step wrote one delivery of `hook` for each run of `ws` it brought to `status`. */
  ghost predicate Accounts(db: DB, db': DB, hook: nat, ws: Id, status: Status) {
    CountFor(db'.deliveries, hook, EventFor(status)) == CountFor(db.deliveries, hook, EventFor(status)) + |Became(db, db', ws, status)|
  }

  /** No run other than `except` is brought to done or failed. */
  ghost predicate Quiet(runs: map<Id, Life>, runs': map<Id, Life>, except: iset<Id>) {
    forall id :: (id in runs' && id !in except && Reported(runs'[id].status))
                 ==> id in runs && runs[id].status == runs'[id].status
  }

  ghost predicate QuietStep(db: DB, db': DB) {
    Quiet(db.runs, db'.runs, iset{}) && SameTargets(db.deliveries, db'.deliveries)
  }

  lemma QuietAccounts(db: DB, db': DB, hook: nat, ws: Id, status: Status)
    requires QuietStep(db, db') && Reported(status)
    ensures Accounts(db, db', hook, ws, status)
  {
    SameTargetsCount(db.deliveries, db'.deliveries, hook, EventFor(status));
    assert Became(db, db', ws, status) == {};
  }

  /** The step ended the run `id` as `ended`, no other, and fanned the matching event out. */
  ghost predicate EndStep(db: DB, db': DB, id: Id, ended: Status, closes: bool) {
    && Has(db, id) && IsActive(db.runs[id].status) && db.origins[id].issue in db.homes && Reported(ended)
    && id in db'.runs && db'.runs[id].status == ended
    && Quiet(db.runs, db'.runs, iset{id})
    && id in db'.origins && db'.origins[id] == db.origins[id] && db'.homes == db.homes
    && (var n, ws := |db.webhooks|, db.homes[db.origins[id].issue];
        db'.deliveries == db.deliveries + FanOut(db.webhooks, n, ws, EventFor(ended))
                          + if closes then FanOut(db.webhooks, n, ws, HookIssueDone) else [])
  }

  lemma EndBecame(db: DB, db': DB, id: Id, ended: Status, closes: bool, ws: Id, status: Status)
    requires EndStep(db, db', id, ended, closes) && Reported(status)
    ensures |Became(db, db', ws, status)| == Count(ended == status && db.homes[db.origins[id].issue] == ws)
  {
    hide FanOut;
    if ended == status && db.homes[db.origins[id].issue] == ws {
      assert Became(db, db', ws, status) == {id};
    } else {
      assert Became(db, db', ws, status) == {};
    }
  }

  lemma EndAccounts(db: DB, db': DB, id: Id, ended: Status, closes: bool, hook: nat, ws: Id, status: Status)
    requires EndStep(db, db', id, ended, closes) && Reported(status)
    requires hook < |db.webhooks| && Receives(db.webhooks[hook], ws, EventFor(status))
    ensures Accounts(db, db', hook, ws, status)
  {
    EndBecame(db, db', id, ended, closes, ws, status);
    hide Quiet, FanOut, CountFor, Became;
    var n, home, asked := |db.webhooks|, db.homes[db.origins[id].issue], EventFor(status);
    var first := FanOut(db.webhooks, n, home, EventFor(ended));
    var second := if closes then FanOut(db.webhooks, n, home, HookIssueDone) else [];
    FanOutCount(db.webhooks, n, home, EventFor(ended), hook, asked);
    FanOutCount(db.webhooks, n, home, HookIssueDone, hook, asked);
    SingleCount([], hook, asked);
    CountSum(db.deliveries + first, second, hook, asked);
    CountSum(db.deliveries, first, hook, asked);
  }

  // ---------------------------------------------------------------- every step accounts

  lemma CancelQuiet(db: DB, ids: set<Id>, kind: EventKind, now: int)
    ensures QuietStep(db, Retire(db, ids, Cancelled, kind, now))
  {
  }

  lemma FailedEnds(db: DB, id: Id, kind: EventKind, now: int)
    requires Has(db, id) && IsActive(db.runs[id].status) && db.origins[id].issue in db.homes
    ensures EndStep(db, Notify(Retire(db, {id}, Failed, kind, now), db.origins[id].issue, HookRunFailed), id, Failed, false)
  {
    hide FanOut, RetireLogs;
  }

  lemma FinishDoneEndStep(db: DB, id: Id, f: FinishInput, now: int, newId: Id)
    requires Has(db, id) && db.runs[id].status == Running && db.origins[id].issue in db.homes && newId != id
    ensures EndStep(db, FinishDone(db, id, f, now, newId), id, Done,
                    ChainTarget(Retire(db, {id}, Done, EvCompleted, now), db.origins[id], f, now).None? && AutoCloses(db, db.origins[id].issue))
  {
    hide FanOut, RetireLogs, ChainTarget, AppendEvent, AutoCloses;
    var o := db.origins[id];
    var done := Retire(db, {id}, Done, EvCompleted, now);
    var chained := DispatchAutoChain(done, id, o, f, now, newId);
    assert Quiet(db.runs, chained.runs, iset{id});
    if ChainTarget(done, o, f, now).None? && AutoCloses(db, o.issue) {
    } else {
    }
  }

  lemma EndFrame(db: DB, noted: DB, db': DB, id: Id, ended: Status, closes: bool)
    requires noted == db.(events := noted.events) && EndStep(noted, db', id, ended, closes)
    ensures EndStep(db, db', id, ended, closes)
  {
    hide FanOut, Quiet;
  }

  lemma CompleteAccounts(db: DB, id: Id, f: FinishInput, now: int, newId: Id, hook: nat, ws: Id, status: Status)
    requires Inv(db) && newId !in db.issued && Reported(status)
    requires hook < |db.webhooks| && Receives(db.webhooks[hook], ws, EventFor(status))
    ensures Accounts(db, Settle(db, CompleteRunWithReason(db, id, f, now, newId)), hook, ws, status)
  {
    hide GraphOK, LivesOK, SettingsOK, FinishDone, EndStep, QuietStep, Accounts, RetireRows, RetireLogs;
    if Has(db, id) && db.runs[id].status == Running {
      RunningIsNotCancelled(db, id);
      var noted := if f.stdoutTruncated then WriteLog(db, id, EvStdoutTruncated) else db;
      var db' := Settle(db, CompleteRunWithReason(db, id, f, now, newId));
      if FinishStatus(f) == Done {
        FinishDoneEndStep(noted, id, f, now, newId);
        var closes := ChainTarget(Retire(noted, {id}, Done, EvCompleted, now), db.origins[id], f, now).None? && AutoCloses(noted, db.origins[id].issue);
        EndFrame(db, noted, db', id, Done, closes);
        EndAccounts(db, db', id, Done, closes, hook, ws, status);
      } else {
        FailedEnds(noted, id, EvFailed, now);
        EndFrame(db, noted, db', id, Failed, false);
        EndAccounts(db, db', id, Failed, false, hook, ws, status);
      }
    } else {
      UnchangedQuiet(db, db);
      QuietAccounts(db, db, hook, ws, status);
    }
  }

  lemma UnchangedQuiet(db: DB, db': DB)
    requires db'.runs == db.runs && db'.deliveries == db.deliveries
    ensures QuietStep(db, db')
  {
  }

  lemma RequeueQuiet(db: DB, id: Id, kind: FailureKind, now: int)
    requires RescheduleRunForRetry(db, id, kind, now).Ok?
    ensures QuietStep(db, RescheduleRunForRetry(db, id, kind, now).value)
  {
    hide QueuedClash, ValidPolicy, ShouldRetry, BackoffSeconds, AppendEvent;
  }

  lemma RetryOrCompleteAccounts(db: DB, id: Id, x: Execution, now: int, newId: Id, hook: nat, ws: Id, status: Status)
    requires Inv(db) && newId !in db.issued && Reported(status)
    requires hook < |db.webhooks| && Receives(db.webhooks[hook], ws, EventFor(status))
    ensures Accounts(db, RetryOrComplete(db, id, x, now, newId), hook, ws, status)
  {
    hide Inv, QuietStep, Accounts, RescheduleRunForRetry, CompleteRunWithReason;
    var kind := KindOf(ReasonOf(x));
    if WantsRetry(x) && RescheduleRunForRetry(db, id, kind, now).Ok? {
      RequeueQuiet(db, id, kind, now);
      QuietAccounts(db, RescheduleRunForRetry(db, id, kind, now).value, hook, ws, status);
    } else {
      CompleteAccounts(db, id, InputOf(x), now, newId, hook, ws, status);
      UnchangedQuiet(db, db);
      QuietAccounts(db, db, hook, ws, status);
    }
  }

  lemma FinishAccounts(db: DB, id: Id, x: Execution, now: int, newId: Id, hook: nat, ws: Id, status: Status)
    requires Inv(db) && newId !in db.issued && Reported(status)
    requires hook < |db.webhooks| && Receives(db.webhooks[hook], ws, EventFor(status))
    ensures Accounts(db, FinishRun(db, id, x, now, newId), hook, ws, status)
  {
    hide Inv, QuietStep, RetryOrComplete, RetireRows, RetireLogs, AppendEvent, CountFor, KeysOK;
    if x.cancelled {
      var db' := FinishRun(db, id, x, now, newId);
      CancelQuiet(db, {id}, EvCancelled, now);
      UnchangedQuiet(db, db);
      QuietAccounts(db, db', hook, ws, status);
    } else {
      NoteKeeps(db, id, EvStdoutSanitized);
      var noted := if x.sanitized then Note(db, id, EvStdoutSanitized) else db;
      RetryOrCompleteAccounts(noted, id, x, now, newId, hook, ws, status);
      assert Became(noted, RetryOrComplete(noted, id, x, now, newId), ws, status) == Became(db, FinishRun(db, id, x, now, newId), ws, status);
    }
  }

  lemma CancelIssueAccounts(db: DB, issue: Id, now: int, hook: nat, ws: Id, status: Status)
    requires Reported(status) && issue in db.homes
    ensures Accounts(db, CancelIssue(db, issue, now), hook, ws, status)
  {
    hide FanOut, CountFor, RetireRows, RetireLogs, QuietStep;
    CancelQuiet(db, RunsOf(db, issue), EvCancelled, now);
    var idle := Retire(db, RunsOf(db, issue), Cancelled, EvCancelled, now);
    QuietAccounts(db, idle, hook, ws, status);
    var n := |idle.webhooks|;
    var fan := FanOut(idle.webhooks, n, idle.homes[issue], HookIssueCancelled);
    CountSum(idle.deliveries, fan, hook, EventFor(status));
    FanOutCount(idle.webhooks, n, idle.homes[issue], HookIssueCancelled, hook, EventFor(status));
    assert Became(db, CancelIssue(db, issue, now), ws, status) == Became(db, idle, ws, status);
  }

  lemma UpdateIssueAccounts(db: DB, issue: Id, to: IssueStatus, now: int, hook: nat, ws: Id, status: Status)
    requires Reported(status)
    ensures Accounts(db, Settle(db, UpdateIssue(db, issue, to, now)), hook, ws, status)
  {
    hide AnyRun, CancelIssue, Accounts, QuietStep;
    if issue in db.homes {
      CancelIssueAccounts(db, issue, now, hook, ws, status);
    }
    UnchangedQuiet(db, db);
    QuietAccounts(db, db, hook, ws, status);
    UnchangedQuiet(db, SetIssue(db, issue, to));
    QuietAccounts(db, SetIssue(db, issue, to), hook, ws, status);
  }

  lemma RetireStepsAccount(db: DB, step: Step, hook: nat, ws: Id, status: Status)
    requires Inv(db) && IsRetireStep(step) && Reported(status)
    requires hook < |db.webhooks| && Receives(db.webhooks[hook], ws, EventFor(status))
    ensures Accounts(db, ApplyRetire(db, step), hook, ws, status)
  {
    hide Inv, QuietStep, Accounts, UpdateIssue, RetireRows, RetireLogs, FanOut;
    UnchangedQuiet(db, db);
    var db' := ApplyRetire(db, step);
    match step {
      case StFailInfrastructure(run, preparing, now) =>
        if Has(db, run) && IsActive(db.runs[run].status) {
          RunningIsNotCancelled(db, run);
          FailedEnds(db, run, if preparing then EvPrepareFailed else EvFailed, now);
          EndAccounts(db, db', run, Failed, false, hook, ws, status);
        } else {
          QuietAccounts(db, db', hook, ws, status);
        }
      case StCancel(run, now) =>
        CancelQuiet(db, {run}, EvCancelled, now);
        QuietAccounts(db, db', hook, ws, status);
      case StCancelChain(chain, now) =>
        CancelQuiet(db, ChainMembers(db, chain), EvCancelled, now);
        QuietAccounts(db, db', hook, ws, status);
      case StRecoverStale(ids, now) =>
        CancelQuiet(db, RunningOf(db, ids), EvStale, now);
        QuietAccounts(db, db', hook, ws, status);
      case StRecoverOrphans(now) =>
        CancelQuiet(db, RunningOf(db, db.runs.Keys), EvOrphan, now);
        QuietAccounts(db, db', hook, ws, status);
      case StUpdateIssue(issue, to, now) => UpdateIssueAccounts(db, issue, to, now, hook, ws, status);
    }
  }

  lemma EnqueueStepsQuiet(db: DB, step: Step)
    requires IsEnqueueStep(step)
    ensures QuietStep(db, ApplyEnqueue(db, step))
  {
    hide QueuedClash, AppendEvent;
    var db' := ApplyEnqueue(db, step);
    assert db'.deliveries == db.deliveries;
    assert db'.runs == db.runs || db'.runs == db.runs[step.newId := NewLife()];
  }

  /** `ds'` still has every delivery of `ds`, to the same target, and has not touched a delivered one. */
  ghost predicate KeepsDeliveries(ds: seq<Delivery>, ds': seq<Delivery>) {
    && |ds| <= |ds'|
    && forall i :: 0 <= i < |ds| ==>
                     && ds'[i].hook == ds[i].hook && ds'[i].event == ds[i].event
                     && (ds[i].status == Delivered ==> ds'[i] == ds[i])
  }

  lemma SettingsKeepDeliveries(db: DB, step: Step)
    requires IsSettingsStep(step)
    ensures KeepsDeliveries(db.deliveries, ApplySettings(db, step).deliveries)
    ensures |ApplySettings(db, step).deliveries| == |db.deliveries|
  {
    hide ValidPolicy, MarkDelivered, MarkFailure, Resubmit, KeepsDeliveries;
    SameKeepsDeliveries(db.deliveries);
    match step
    case StPutWorkspace(_, _) =>
    case StAddAgent(_, _, _, _) =>
    case StSetPolicy(_, _) =>
    case StAddWebhook(_) =>
    case StSetWebhook(_, _, _) =>
    case StDelivered(d) => MarkKeepsDeliveries(db, d, MarkDelivered(db, d));
    case StDeliveryFailed(d) => MarkKeepsDeliveries(db, d, MarkFailure(db, d));
    case StResubmit(d) => MarkKeepsDeliveries(db, d, Resubmit(db, d));
  }

  lemma SameKeepsDeliveries(ds: seq<Delivery>)
    ensures KeepsDeliveries(ds, ds)
  {
  }

  /** Marking changes one delivery, and never one that was delivered. */
  lemma MarkKeepsDeliveries(db: DB, d: nat, r: Result<DB>)
    requires r == MarkDelivered(db, d) || r == MarkFailure(db, d) || r == Resubmit(db, d)
    ensures KeepsDeliveries(db.deliveries, Settle(db, r).deliveries) && |Settle(db, r).deliveries| == |db.deliveries|
  {
    hide KeepsDeliveries;
    SameKeepsDeliveries(db.deliveries);
    if d < |db.deliveries| && db.deliveries[d].status != Delivered {
      SetKeepsDeliveries(db.deliveries, d, Settle(db, r).deliveries[d].status, Settle(db, r).deliveries[d].attempt);
    }
  }

  lemma SetKeepsDeliveries(ds: seq<Delivery>, d: nat, status: DeliveryStatus, attempt: nat)
    requires d < |ds| && ds[d].status != Delivered
    ensures KeepsDeliveries(ds, ds[d := ds[d].(status := status, attempt := attempt)])
  {
  }

  lemma SettingsStepsQuiet(db: DB, step: Step)
    requires IsSettingsStep(step)
    ensures QuietStep(db, ApplySettings(db, step))
  {
    hide ApplySettings;
    SettingsKeepDeliveries(db, step);
    SettingsSpareQueue(db, step);
  }

  lemma ClaimQuiet(db: DB, now: int)
    ensures QuietStep(db, ClaimNextRun(db, now))
  {
    hide AppendEvent, NextRun;
  }

  lemma DeleteQuiet(db: DB, issue: Id)
    ensures QuietStep(db, Settle(db, DeleteIssue(db, issue)))
  {
    hide AnyRun;
    if DeleteIssue(db, issue).Ok? {}
  }

  lemma HeartbeatQuiet(db: DB, run: Id, now: int)
    ensures QuietStep(db, Heartbeat(db, run, now))
  {
  }

  lemma OtherStepsQuiet(db: DB, step: Step)
    requires step.StClaim? || step.StNote? || step.StHeartbeat? || step.StDeleteIssue?
    ensures QuietStep(db, Apply(db, step))
  {
    hide QuietStep, ClaimNextRun, Heartbeat, DeleteIssue, AppendEvent;
    match step
    case StClaim(now) => ClaimQuiet(db, now);
    case StNote(run, kind) => UnchangedQuiet(db, Note(db, run, kind));
    case StHeartbeat(run, now) => HeartbeatQuiet(db, run, now);
    case StDeleteIssue(issue) => DeleteQuiet(db, issue);
  }

  lemma StepAccounts(db: DB, step: Step, hook: nat, ws: Id, status: Status)
    requires Inv(db) && Fresh(db, step) && Reported(status)
    requires hook < |db.webhooks| && Receives(db.webhooks[hook], ws, EventFor(status))
    ensures Accounts(db, Apply(db, step), hook, ws, status)
  {
    hide Inv, QuietStep, Accounts, ApplyEnqueue, ApplyRetire, ApplySettings, FinishRun, ClaimNextRun, Note, Heartbeat, DeleteIssue;
    if IsEnqueueStep(step) {
      EnqueueStepsQuiet(db, step);
      QuietAccounts(db, Apply(db, step), hook, ws, status);
    } else if IsRetireStep(step) {
      RetireStepsAccount(db, step, hook, ws, status);
    } else if IsSettingsStep(step) {
      SettingsStepsQuiet(db, step);
      QuietAccounts(db, Apply(db, step), hook, ws, status);
    } else if step.StFinish? {
      FinishAccounts(db, step.run, step.execution, step.now, step.newId, hook, ws, status);
    } else {
      OtherStepsQuiet(db, step);
      QuietAccounts(db, Apply(db, step), hook, ws, status);
    }
  }

  // ---------------------------------------------------------------- over whole histories

  /** How many runs of the workspace were brought to `status` by the steps from `i` to `j`. */
  function BecameCount(dbs: seq<DB>, i: nat, j: nat, ws: Id, status: Status): nat
    requires i <= j < |dbs|
    decreases j
  {
    if i == j then 0 else BecameCount(dbs, i, j - 1, ws, status) + |Became(dbs[j - 1], dbs[j], ws, status)|
  }

  /** The webhook is enabled for the event and the workspace in every state from `i` to before `j`. */
  ghost predicate Subscribed(dbs: seq<DB>, i: nat, j: nat, hook: nat, ws: Id, event: HookEvent)
    requires i <= j < |dbs|
  {
    forall k :: i <= k < j ==>
                  && hook < |dbs[k].webhooks| && dbs[k].webhooks[hook].workspace == ws && dbs[k].webhooks[hook].enabled
                  && (dbs[k].webhooks[hook].events == [] || event in dbs[k].webhooks[hook].events)
  }

  /**
   Conservation: while a webhook stays enabled and subscribed, its `run.completed` rows grow by exactly the number of runs
   that became done, and its `run.failed` rows by the number that became failed, whichever transaction ended them.
   */
  lemma {:induction false} DeliveriesMatchFinishedRuns(dbs: seq<DB>, steps: seq<Step>, i: nat, j: nat, hook: nat, ws: Id, status: Status)
    requires IsHistory(dbs, steps) && i <= j < |dbs| && Reported(status)
    requires Subscribed(dbs, i, j, hook, ws, EventFor(status))
    ensures CountFor(dbs[j].deliveries, hook, EventFor(status))
            == CountFor(dbs[i].deliveries, hook, EventFor(status)) + BecameCount(dbs, i, j, ws, status)
    decreases j
  {
    hide Apply, Inv, CountFor, Became;
    if i < j {
      DeliveriesMatchFinishedRuns(dbs, steps, i, j - 1, hook, ws, status);
      HistoryInv(dbs, steps, j - 1);
      StepAccounts(dbs[j - 1], steps[j - 1], hook, ws, status);
    }
  }

  // ---------------------------------------------------------------- deliveries stay

  /** Nothing but new pending deliveries at the end. */
  ghost predicate Extends(ds: seq<Delivery>, ds': seq<Delivery>) {
    ds <= ds' && forall i :: |ds| <= i < |ds'| ==> ds'[i].status == Pending && ds'[i].attempt == 0
  }

  lemma {:induction false} FanOutIsNew(hooks: seq<Webhook>, n: nat, ws: Id, event: HookEvent)
    requires n <= |hooks|
    ensures Extends([], FanOut(hooks, n, ws, event))
  {
    if n > 0 {
      FanOutIsNew(hooks, n - 1, ws, event);
    }
  }

  lemma NotifyExtends(db: DB, issue: Id, event: HookEvent)
    ensures Extends(db.deliveries, Notify(db, issue, event).deliveries)
  {
    hide FanOut;
    if issue in db.homes {
      FanOutIsNew(db.webhooks, |db.webhooks|, db.homes[issue], event);
    }
  }

  lemma FinishDoneKeepsDeliveries(db: DB, id: Id, f: FinishInput, now: int, newId: Id)
    requires Has(db, id)
    ensures Extends(db.deliveries, FinishDone(db, id, f, now, newId).deliveries)
  {
    hide RetireRows, RetireLogs, FanOut, ChainTarget, AppendEvent, AutoCloses, Notify;
    var o := db.origins[id];
    var chained := DispatchAutoChain(Retire(db, {id}, Done, EvCompleted, now), id, o, f, now, newId);
    var closed := SetIssue(chained, o.issue, IssueDone);
    NotifyExtends(chained, o.issue, HookRunCompleted);
    NotifyExtends(closed, o.issue, HookRunCompleted);
    NotifyExtends(Notify(closed, o.issue, HookRunCompleted), o.issue, HookIssueDone);
  }

  lemma CompleteKeepsDeliveries(db: DB, id: Id, f: FinishInput, now: int, newId: Id)
    ensures Extends(db.deliveries, Settle(db, CompleteRunWithReason(db, id, f, now, newId)).deliveries)
  {
    hide RetireRows, RetireLogs, FinishDone, AppendEvent, Notify;
    if Has(db, id) {
      var noted := if f.stdoutTruncated then WriteLog(db, id, EvStdoutTruncated) else db;
      FinishDoneKeepsDeliveries(noted, id, f, now, newId);
      NotifyExtends(Retire(noted, {id}, Failed, EvFailed, now), db.origins[id].issue, HookRunFailed);
    }
  }

  lemma FinishKeepsDeliveries(db: DB, id: Id, x: Execution, now: int, newId: Id)
    ensures Extends(db.deliveries, FinishRun(db, id, x, now, newId).deliveries)
  {
    hide RetireRows, RetireLogs, AppendEvent, QueuedClash, ValidPolicy, ShouldRetry, BackoffSeconds, CompleteRunWithReason;
    CompleteKeepsDeliveries(if x.sanitized then Note(db, id, EvStdoutSanitized) else db, id, InputOf(x), now, newId);
  }

  lemma RetireKeepsDeliveries(db: DB, step: Step)
    requires IsRetireStep(step)
    ensures Extends(db.deliveries, ApplyRetire(db, step).deliveries)
  {
    hide RetireRows, RetireLogs, Notify, UpdateIssue;
    match step
    case StFailInfrastructure(run, preparing, now) =>
      if Has(db, run) {
        NotifyExtends(Retire(db, {run}, Failed, if preparing then EvPrepareFailed else EvFailed, now), db.origins[run].issue, HookRunFailed);
      }
    case StCancel(run, now) =>
    case StCancelChain(chain, now) =>
    case StRecoverStale(ids, now) =>
    case StRecoverOrphans(now) =>
    case StUpdateIssue(issue, to, now) => UpdateIssueKeepsDeliveries(db, issue, to, now);
  }

  lemma UpdateIssueKeepsDeliveries(db: DB, issue: Id, to: IssueStatus, now: int)
    ensures Extends(db.deliveries, Settle(db, UpdateIssue(db, issue, to, now)).deliveries)
  {
    hide AnyRun, RetireRows, RetireLogs, Notify;
    NotifyExtends(SetIssue(Retire(db, RunsOf(db, issue), Cancelled, EvCancelled, now), issue, IssueCancelled), issue, HookIssueCancelled);
  }

  lemma PrefixKeeps(ds: seq<Delivery>, ds': seq<Delivery>)
    requires ds <= ds'
    ensures KeepsDeliveries(ds, ds')
  {
  }

  lemma StepKeepsDeliveries(db: DB, step: Step)
    ensures KeepsDeliveries(db.deliveries, Apply(db, step).deliveries)
  {
    hide KeepsDeliveries, ApplyEnqueue, ApplyRetire, ApplySettings, FinishRun, ClaimNextRun, Note, Heartbeat, DeleteIssue, SameTargets, Quiet;
    var db' := Apply(db, step);
    if IsSettingsStep(step) {
      SettingsKeepDeliveries(db, step);
    } else {
      if IsEnqueueStep(step) {
        EnqueueSameDeliveries(db, step);
      } else if IsRetireStep(step) {
        RetireKeepsDeliveries(db, step);
      } else if step.StFinish? {
        FinishKeepsDeliveries(db, step.run, step.execution, step.now, step.newId);
      } else {
        OtherSameDeliveries(db, step);
      }
      PrefixKeeps(db.deliveries, db'.deliveries);
    }
  }

  lemma EnqueueSameDeliveries(db: DB, step: Step)
    requires IsEnqueueStep(step)
    ensures ApplyEnqueue(db, step).deliveries == db.deliveries
  {
    hide QueuedClash, AppendEvent;
  }

  lemma OtherSameDeliveries(db: DB, step: Step)
    requires step.StClaim? || step.StNote? || step.StHeartbeat? || step.StDeleteIssue?
    ensures Apply(db, step).deliveries == db.deliveries
  {
    hide AppendEvent, NextRun, AnyRun;
  }

  /** A delivery after a step: a success or a failure counts for a pending one, the last failure ends it, and a dead letter can start again. */
  ghost function DeliveryAfter(db: DB, step: Step, d: nat): Delivery
    requires d < |db.deliveries|
  {
    var v := db.deliveries[d];
    match step
    case StDelivered(k) => if k == d && v.status == Pending then v.(status := Delivered, attempt := v.attempt + 1) else v
    case StDeliveryFailed(k) =>
      if k == d && v.status == Pending
      then v.(status := if v.attempt + 1 < db.hookAttempts then Pending else DeadLetter, attempt := v.attempt + 1)
      else v
    case StResubmit(k) => if k == d && v.status == DeadLetter then v.(status := Pending, attempt := 0) else v
    case _ => v
  }

  lemma SettingsDelivery(db: DB, step: Step, d: nat)
    requires IsSettingsStep(step) && d < |db.deliveries|
    ensures |ApplySettings(db, step).deliveries| == |db.deliveries| && ApplySettings(db, step).deliveries[d] == DeliveryAfter(db, step, d)
  {
    hide ValidPolicy, MarkDelivered, MarkFailure, Resubmit;
    match step
    case StPutWorkspace(_, _) =>
    case StAddAgent(_, _, _, _) =>
    case StSetPolicy(_, _) =>
    case StAddWebhook(_) =>
    case StSetWebhook(_, _, _) =>
    case StDelivered(k) => DeliveredMark(db, k, d);
    case StDeliveryFailed(k) => FailureMark(db, k, d);
    case StResubmit(k) => ResubmitMark(db, k, d);
  }

  lemma DeliveredMark(db: DB, k: nat, d: nat)
    requires d < |db.deliveries|
    ensures var ds := Settle(db, MarkDelivered(db, k)).deliveries;
            |ds| == |db.deliveries| && ds[d] == DeliveryAfter(db, StDelivered(k), d)
  {
    if k < |db.deliveries| && db.deliveries[k].status == Pending {
      if k == d {}
    }
  }

  lemma FailureMark(db: DB, k: nat, d: nat)
    requires d < |db.deliveries|
    ensures var ds := Settle(db, MarkFailure(db, k)).deliveries;
            |ds| == |db.deliveries| && ds[d] == DeliveryAfter(db, StDeliveryFailed(k), d)
  {
    if k < |db.deliveries| && db.deliveries[k].status == Pending {
      if k == d {
        if db.deliveries[k].attempt + 1 < db.hookAttempts {}
      }
    }
  }

  lemma ResubmitMark(db: DB, k: nat, d: nat)
    requires d < |db.deliveries|
    ensures var ds := Settle(db, Resubmit(db, k)).deliveries;
            |ds| == |db.deliveries| && ds[d] == DeliveryAfter(db, StResubmit(k), d)
  {
    if k < |db.deliveries| && db.deliveries[k].status == DeadLetter {
      if k == d {}
    }
  }

  lemma StepExtends(db: DB, step: Step)
    requires !IsSettingsStep(step)
    ensures Extends(db.deliveries, Apply(db, step).deliveries)
  {
    hide ApplyEnqueue, ApplyRetire, ApplySettings, FinishRun, ClaimNextRun, Note, Heartbeat, DeleteIssue;
    if IsEnqueueStep(step) {
      EnqueueSameDeliveries(db, step);
    } else if IsRetireStep(step) {
      RetireKeepsDeliveries(db, step);
    } else if step.StFinish? {
      FinishKeepsDeliveries(db, step.run, step.execution, step.now, step.newId);
    } else {
      OtherSameDeliveries(db, step);
    }
  }

  lemma StepDelivery(db: DB, step: Step, d: nat)
    requires d < |db.deliveries|
    ensures d < |Apply(db, step).deliveries| && Apply(db, step).deliveries[d] == DeliveryAfter(db, step, d)
  {
    hide ApplyEnqueue, ApplyRetire, ApplySettings, FinishRun, ClaimNextRun, Note, Heartbeat, DeleteIssue;
    if IsSettingsStep(step) {
      SettingsDelivery(db, step, d);
    } else {
      StepExtends(db, step);
    }
  }

  /** The table of the deliveries, for every delivery in every step of every history; a new one is pending and untried. */
  lemma EveryDelivery(dbs: seq<DB>, steps: seq<Step>, i: nat, d: nat)
    requires IsHistory(dbs, steps) && i < |steps|
    ensures d < |dbs[i].deliveries| ==> d < |dbs[i + 1].deliveries| && dbs[i + 1].deliveries[d] == DeliveryAfter(dbs[i], steps[i], d)
    ensures |dbs[i].deliveries| <= d < |dbs[i + 1].deliveries| ==> dbs[i + 1].deliveries[d].status == Pending && dbs[i + 1].deliveries[d].attempt == 0
  {
    hide Apply, DeliveryAfter;
    if d < |dbs[i].deliveries| {
      StepDelivery(dbs[i], steps[i], d);
    } else if IsSettingsStep(steps[i]) {
      StepDeliveryCount(dbs[i], steps[i]);
    } else {
      StepExtends(dbs[i], steps[i]);
    }
  }

  lemma StepDeliveryCount(db: DB, step: Step)
    requires IsSettingsStep(step)
    ensures |Apply(db, step).deliveries| == |db.deliveries|
  {
    hide ApplySettings;
    SettingsKeepDeliveries(db, step);
  }

  /** A delivery row is never dropped or redirected, and one that is `delivered` is never changed again. */
  lemma {:induction false} DeliveredForGood(dbs: seq<DB>, steps: seq<Step>, i: nat, j: nat, d: nat)
    requires IsHistory(dbs, steps) && i <= j < |dbs| && d < |dbs[i].deliveries|
    ensures d < |dbs[j].deliveries|
    ensures dbs[j].deliveries[d].hook == dbs[i].deliveries[d].hook && dbs[j].deliveries[d].event == dbs[i].deliveries[d].event
    ensures dbs[i].deliveries[d].status == Delivered ==> dbs[j].deliveries[d] == dbs[i].deliveries[d]
    decreases j
  {
    hide Apply;
    if i < j {
      DeliveredForGood(dbs, steps, i, j - 1, d);
      StepKeepsDeliveries(dbs[j - 1], steps[j - 1]);
    }
  }

  /** In every reachable state a pending delivery has attempts left and a dead letter has used exactly all of them. */
  lemma DeliveryAttempts(dbs: seq<DB>, steps: seq<Step>, i: nat, d: nat)
    requires IsHistory(dbs, steps) && i < |dbs| && d < |dbs[i].deliveries|
    ensures dbs[i].deliveries[d].status == Pending ==> dbs[i].deliveries[d].attempt < dbs[i].hookAttempts
    ensures dbs[i].deliveries[d].status == DeadLetter ==> dbs[i].deliveries[d].attempt == dbs[i].hookAttempts
  {
    hide Apply, GraphOK, LivesOK, KeysOK;
    HistoryInv(dbs, steps, i);
  }
}
