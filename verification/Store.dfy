/**
 The store: tables updated in place by the statements and loops of each transaction.

 Every method is proved against the transaction of the same name in `RunQueue`, and so is one step of the queue's
 machine that keeps the queue's invariant.
 */
module RunStore {
  import opened Common
  import opened RetryPolicies
  import opened RunQueue
  import opened QueueInvariant
  import opened QueueExclusion

  function Elements(ids: seq<Id>): set<Id> { set id | id in ids }

  function ErrorOf(r: Result<DB>): Option<StoreError> { if r.Ok? then None else Some(r.error) }

  // ---------------------------------------------------------------- loops over rows

  /** Retiring one more run: what a loop over a selection adds up to. */
  lemma RetireOneMore(db: DB, ids: set<Id>, id: Id, status: Status, kind: EventKind, now: int)
    requires KeysOK(db) && !IsActive(status)
    ensures Retire(Retire(db, ids, status, kind, now), {id}, status, kind, now) == Retire(db, ids + {id}, status, kind, now)
  {
    hide AppendEvent;
    RetireRowsOneMore(db.runs, ids, id, status, now);
    RetireLogsOneMore(db.runs, db.events, ids, id, status, kind, now);
  }

  lemma RetireRowsOneMore(runs: map<Id, Life>, ids: set<Id>, id: Id, status: Status, now: int)
    requires !IsActive(status)
    ensures RetireRows(RetireRows(runs, ids, status, now), {id}, status, now) == RetireRows(runs, ids + {id}, status, now)
  {
  }

  lemma RetireLogsOneMore(runs: map<Id, Life>, events: map<Id, seq<Event>>, ids: set<Id>, id: Id, status: Status, kind: EventKind, now: int)
    requires !IsActive(status) && runs.Keys == events.Keys
    ensures RetireLogs(RetireRows(runs, ids, status, now), RetireLogs(runs, events, ids, kind), {id}, kind)
            == RetireLogs(runs, events, ids + {id}, kind)
  {
    hide AppendEvent;
  }

  lemma RetireOne(db: DB, id: Id, status: Status, kind: EventKind, now: int)
    requires KeysOK(db) && id in db.runs && IsActive(db.runs[id].status)
    ensures RetireRows(db.runs, {id}, status, now) == db.runs[id := Retired(db.runs[id], status, now)]
    ensures RetireLogs(db.runs, db.events, {id}, kind) == db.events[id := AppendEvent(db.events[id], kind)]
  {
    hide AppendEvent;
  }

  lemma RetireNone(db: DB, ids: set<Id>, status: Status, kind: EventKind, now: int)
    requires forall id :: id in ids && id in db.runs ==> !IsActive(db.runs[id].status)
    ensures Retire(db, ids, status, kind, now) == db
  {
    hide AppendEvent;
    assert RetireRows(db.runs, ids, status, now) == db.runs;
    assert RetireLogs(db.runs, db.events, ids, kind) == db.events;
  }

  /** Only the active members of a selection matter. */
  lemma RetireSame(db: DB, ids: set<Id>, ids': set<Id>, status: Status, kind: EventKind, now: int)
    requires forall id :: id in db.runs && IsActive(db.runs[id].status) ==> (id in ids <==> id in ids')
    ensures Retire(db, ids, status, kind, now) == Retire(db, ids', status, kind, now)
  {
    hide AppendEvent;
    assert RetireRows(db.runs, ids, status, now) == RetireRows(db.runs, ids', status, now);
    assert RetireLogs(db.runs, db.events, ids, kind) == RetireLogs(db.runs, db.events, ids', kind);
  }

  class Store {
    var workspaces: map<Id, Workspace>
    var agents: map<Id, Agent>
    var policies: map<Id, RetryPolicy>
    var homes: map<Id, Id>
    var issues: map<Id, IssueStatus>
    var origins: map<Id, Origin>
    var runs: map<Id, Life>
    var events: map<Id, seq<Event>>
    var webhooks: seq<Webhook>
    var deliveries: seq<Delivery>
    const hookAttempts: nat
    var issued: set<Id>
    var stamp: nat

    /** The tables as one value. */
    function Snapshot(): DB
      reads this
    {
      DB(workspaces, agents, policies, homes, issues, origins, runs, events, webhooks, deliveries, hookAttempts, issued, stamp)
    }

    ghost predicate Valid()
      reads this
    {
      Inv(Snapshot())
    }

    constructor (hookAttempts: nat)
      requires hookAttempts > 0
      ensures Snapshot() == EmptyDB(hookAttempts)
    {
      workspaces, agents, policies, homes, issues := map[], map[], map[], map[], map[];
      origins, runs, events, webhooks, deliveries := map[], map[], map[], [], [];
      this.hookAttempts := hookAttempts;
      issued, stamp := {}, 0;
    }

    // -------------------------------------------------------------- statements inside transactions

    /** Appends a log row numbered one past the largest number of its run; refuses an unknown run or one of another issue. */
    method AppendRunEvent(id: Id, issue: Option<Id>, kind: EventKind) returns (err: Option<StoreError>)
      modifies this`events
      ensures err == if !Has(Snapshot(), id) then Some(NotFound)
                     else if issue.Some? && issue.value != origins[id].issue then Some(Validation) else None
      ensures Snapshot() == if err.None? then WriteLog(old(Snapshot()), id, kind) else old(Snapshot())
    {
      if id !in runs || id !in origins {
        return Some(NotFound);
      }
      if issue.Some? && issue.value != origins[id].issue {
        return Some(Validation);
      }
      var log := if id in events then events[id] else [];
      var last := 0;
      for i := 0 to |log|
        invariant last == MaxSeq(log[..i])
      {
        assert log[..i + 1][..i] == log[..i];
        if log[i].seqNo > last {
          last := log[i].seqNo;
        }
      }
      assert log[..|log|] == log;
      events := events[id := log + [Event(last + 1, kind)]];
      return None;
    }

    /** A guarded status update and its log row; the guard finds the run or the statement does nothing. */
    method EndRun(id: Id, from: set<Status>, status: Status, kind: EventKind, now: int) returns (updated: bool)
      requires KeysOK(Snapshot()) && from <= {Queued, Running}
      modifies this`runs, this`events
      ensures updated == (id in old(runs) && old(runs)[id].status in from)
      ensures Snapshot() == if updated then Retire(old(Snapshot()), {id}, status, kind, now) else old(Snapshot())
    {
      hide AppendEvent, RetireRows, RetireLogs;
      updated := id in runs && runs[id].status in from;
      if updated {
        RetireOne(Snapshot(), id, status, kind, now);
        runs := runs[id := runs[id].(status := status, finishedAt := Some(now))];
        var _ := AppendRunEvent(id, None, kind);
      }
    }

    /** One pending row for every enabled webhook of the workspace whose filter matches. */
    method EnqueueWebhookDeliveries(ws: Id, event: HookEvent) returns (queued: nat)
      modifies this`deliveries
      ensures deliveries == old(deliveries) + FanOut(webhooks, |webhooks|, ws, event)
      ensures queued == |FanOut(webhooks, |webhooks|, ws, event)|
    {
      queued := 0;
      for i := 0 to |webhooks|
        invariant deliveries == old(deliveries) + FanOut(webhooks, i, ws, event)
        invariant queued == |FanOut(webhooks, i, ws, event)|
      {
        var hook := webhooks[i];
        if hook.workspace != ws || !hook.enabled {
          continue;
        }
        if hook.events != [] && event !in hook.events {
          continue;
        }
        deliveries := deliveries + [Delivery(i, event, Pending, 0)];
        queued := queued + 1;
      }
    }

    method NotifyIssue(issue: Id, event: HookEvent)
      modifies this`deliveries
      ensures Snapshot() == Notify(old(Snapshot()), issue, event)
    {
      hide FanOut;
      if issue in homes {
        var _ := EnqueueWebhookDeliveries(homes[issue], event);
      }
    }

    method InsertRun(id: Id, o: Origin, logged: bool)
      modifies this`origins, this`runs, this`events, this`issued, this`stamp
      requires id !in events
      ensures Snapshot() == Enqueue(old(Snapshot()), id, o, logged)
    {
      hide AppendEvent;
      origins := origins[id := o.(born := stamp)];
      runs := runs[id := Life(Queued, None, None, None, 1, None)];
      issued, stamp := issued + {id}, stamp + 1;
      if logged {
        var _ := AppendRunEvent(id, None, EvQueued);
      } else {
        events := events[id := []];
      }
    }

    // -------------------------------------------------------------- claim

    /** A scan of the run table for the first eligible row. */
    method NextEligible(now: int) returns (next: Option<Id>)
      ensures next == NextRun(Snapshot(), now)
      ensures next.None? <==> forall id :: !Ready(Snapshot(), now, id)
      ensures forall id: Id :: next == Some(id) <==> ComesFirst(Snapshot(), now, id)
    {
      hide Eligible, Ready, ComesFirst;
      var db := Snapshot();
      ClaimQuery(db, now);
      next := None;
      var todo := runs.Keys;
      while todo != {}
        invariant todo <= runs.Keys
        invariant next.None? ==> forall id :: id in runs && id !in todo ==> !Eligible(db, now, id)
        invariant next.Some? ==> next.value in origins && Eligible(db, now, next.value)
        invariant next.Some? ==> forall id :: (id in runs && id !in todo && id != next.value && Eligible(db, now, id))
                                               ==> id in origins && Before(origins[next.value], next.value, origins[id], id)
        decreases todo
      {
        var id :| id in todo;
        todo := todo - {id};
        EligibleHas(db, now, id);
        if Eligible(db, now, id) {
          if next.None? || Before(origins[id], id, origins[next.value], next.value) {
            next := Some(id);
          }
        }
      }
      ScanFinds(db, now, next);
    }

    /** Claims the first eligible run, if any. */
    method ClaimNextRun(now: int) returns (claimed: Option<Id>)
      requires Valid()
      modifies this`runs, this`events
      ensures claimed == NextRun(old(Snapshot()), now)
      ensures Snapshot() == Apply(old(Snapshot()), StClaim(now)) && Valid()
    {
      hide Inv, NextRun, AppendEvent;
      StepKeeps(Snapshot(), StClaim(now));
      claimed := NextEligible(now);
      if claimed.Some? {
        var id := claimed.value;
        NextIsQueued(Snapshot(), now);
        runs := runs[id := runs[id].(status := Running, claimedAt := Some(now), heartbeatAt := Some(now))];
        var _ := AppendRunEvent(id, None, EvClaimed);
      }
    }
  
    // -------------------------------------------------------------- cancel, fail, retry

    method CancelRunWithReason(id: Id, now: int) returns (err: Option<StoreError>)
      requires Valid()
      modifies this`runs, this`events
      ensures err == ErrorOf(RunQueue.CancelRunWithReason(old(Snapshot()), id, now))
      ensures Snapshot() == Apply(old(Snapshot()), StCancel(id, now)) && Valid()
    {
      hide GraphOK, LivesOK, SettingsOK, RetireRows, RetireLogs;
      StepKeeps(Snapshot(), StCancel(id, now));
      if id !in runs {
        return Some(NotFound);
      }
      var updated := EndRun(id, {Queued, Running}, Cancelled, EvCancelled, now);
      err := if updated then None else Some(StateError);
    }

    /** The loop over selected rows that several transactions share: each row the guard still finds is ended once. */
    method EndAll(ids: seq<Id>, from: set<Status>, status: Status, kind: EventKind, now: int) returns (ended: nat)
      requires KeysOK(Snapshot()) && from <= {Queued, Running} && !IsActive(status)
      modifies this`runs, this`events
      ensures Snapshot() == Retire(old(Snapshot()), Matching(old(Snapshot()), ids, from), status, kind, now)
      ensures ended == |Matching(old(Snapshot()), ids, from)|
    {
      hide KeysOK, Retire;
      ghost var db := Snapshot();
      ended := 0;
      RetireNone(db, Matching(db, ids[..0], from), status, kind, now);
      for i := 0 to |ids|
        invariant Snapshot() == Retire(db, Matching(db, ids[..i], from), status, kind, now) && KeysOK(Snapshot())
        invariant ended == |Matching(db, ids[..i], from)|
      {
        EndAllStep(db, ids, i, from, status, kind, now);
        var updated := EndRun(ids[i], from, status, kind, now);
        if updated {
          ended := ended + 1;
        }
      }
      assert ids[..|ids|] == ids;
    }

    /** A selection of rows, in any order. */
    method SelectRuns(wanted: set<Id>) returns (ids: seq<Id>)
      ensures forall id :: id in ids <==> id in wanted
    {
      ids := [];
      var todo := wanted;
      while todo != {}
        invariant todo <= wanted
        invariant forall id :: id in ids <==> id in wanted && id !in todo
        decreases todo
      {
        var id :| id in todo;
        todo := todo - {id};
        ids := ids + [id];
      }
    }

    /** Cancels every active run of the chain and counts them; finished ones are skipped. */
    method CancelRunsByChain(chain: Id, now: int) returns (cancelled: nat)
      requires Valid()
      modifies this`runs, this`events
      ensures Snapshot() == Apply(old(Snapshot()), StCancelChain(chain, now)) && Valid()
      ensures cancelled == |ActiveOf(old(Snapshot()), ChainMembers(old(Snapshot()), chain))|
    {
      hide GraphOK, LivesOK, SettingsOK, Retire, Matching;
      ghost var db := Snapshot();
      StepKeeps(db, StCancelChain(chain, now));
      var ids := SelectRuns(ActiveOf(Snapshot(), ChainMembers(Snapshot(), chain)));
      cancelled := EndAll(ids, {Queued, Running}, Cancelled, EvCancelled, now);
      MatchingAll(db, ids, ChainMembers(db, chain), {Queued, Running});
      RetireSame(db, Matching(db, ids, {Queued, Running}), ChainMembers(db, chain), Cancelled, EvCancelled, now);
    }

    /** Cancels those of an earlier selection that are still running. */
    method RecoverStaleRuns(ids: seq<Id>, now: int) returns (count: nat)
      requires Valid()
      modifies this`runs, this`events
      ensures Snapshot() == Apply(old(Snapshot()), StRecoverStale(Elements(ids), now)) && Valid()
      ensures count == |ids|
    {
      hide GraphOK, LivesOK, SettingsOK, Retire;
      ghost var db := Snapshot();
      StepKeeps(db, StRecoverStale(Elements(ids), now));
      var _ := EndAll(ids, {Running}, Cancelled, EvStale, now);
      assert Matching(db, ids, {Running}) == RunningOf(db, Elements(ids));
      count := |ids|;
    }

    /** The stale scan's selection: running, without a recent heartbeat, and not executing in this pool. */
    method SelectStale(cutoff: int, active: seq<Id>) returns (ids: seq<Id>)
      ensures forall id :: id in ids <==>
                           && id in runs && runs[id].status == Running && runs[id].finishedAt.None? && id !in active
                           && (runs[id].heartbeatAt.None? || runs[id].heartbeatAt.value < cutoff)
    {
      ids := SelectRuns(set id | id in runs && runs[id].status == Running && runs[id].finishedAt.None? && id !in active
                                 && (runs[id].heartbeatAt.None? || runs[id].heartbeatAt.value < cutoff));
    }

    /** Start-up: nothing is executing yet, so every running row is an orphan. */
    method RecoverOrphanRuns(now: int) returns (count: nat)
      requires Valid()
      modifies this`runs, this`events
      ensures Snapshot() == Apply(old(Snapshot()), StRecoverOrphans(now)) && Valid()
      ensures forall id :: id in runs ==> runs[id].status != Running
      ensures count == |RunningOf(old(Snapshot()), old(runs).Keys)|
    {
      hide GraphOK, LivesOK, SettingsOK, Retire;
      ghost var db := Snapshot();
      StepKeeps(db, StRecoverOrphans(now));
      var ids := SelectRuns(RunningOf(Snapshot(), runs.Keys));
      count := EndAll(ids, {Running}, Cancelled, EvOrphan, now);
      assert Matching(db, ids, {Running}) == RunningOf(db, db.runs.Keys);
      forall id | id in runs
        ensures runs[id].status != Running
      {
        RetiredStatus(db, RunningOf(db, db.runs.Keys), id, Cancelled, EvOrphan, now);
      }
    }

    method FailInfrastructureRun(id: Id, preparing: bool, now: int) returns (err: Option<StoreError>)
      requires Valid()
      modifies this`runs, this`events, this`deliveries
      ensures err == ErrorOf(RunQueue.FailInfrastructureRun(old(Snapshot()), id, preparing, now))
      ensures Snapshot() == Apply(old(Snapshot()), StFailInfrastructure(id, preparing, now)) && Valid()
    {
      hide GraphOK, LivesOK, SettingsOK, RetireRows, RetireLogs, Notify;
      StepKeeps(Snapshot(), StFailInfrastructure(id, preparing, now));
      if id !in runs {
        return Some(NotFound);
      }
      var issue := origins[id].issue;
      var updated := EndRun(id, {Queued, Running}, Failed, if preparing then EvPrepareFailed else EvFailed, now);
      if updated {
        NotifyIssue(issue, HookRunFailed);
      }
      return None;
    }

    method RescheduleRunForRetry(id: Id, kind: FailureKind, now: int) returns (err: Option<StoreError>)
      requires KeysOK(Snapshot())
      modifies this`runs, this`events
      ensures err == ErrorOf(RunQueue.RescheduleRunForRetry(old(Snapshot()), id, kind, now))
      ensures Snapshot() == Settle(old(Snapshot()), RunQueue.RescheduleRunForRetry(old(Snapshot()), id, kind, now))
    {
      hide QueuedClash, ValidPolicy, ShouldRetry, BackoffSeconds, AppendEvent;
      if id !in runs || origins[id].agent !in policies {
        return Some(NotFound);
      }
      var policy := policies[origins[id].agent];
      if !ValidPolicy(policy) {
        return Some(Validation);
      }
      var r := runs[id];
      if r.status != Running || !ShouldRetry(kind, r.attempt, origins[id].maxAttempts, policy) {
        return Some(StateError);
      }
      if QueuedClash(origins, runs, origins[id].issue, origins[id].agent) {
        return Some(Conflict);
      }
      var delay := BackoffSeconds(r.attempt, policy);
      runs := runs[id := r.(status := Queued, nextRetryAt := Some(now + delay), attempt := r.attempt + 1,
                            claimedAt := None, heartbeatAt := None)];
      var _ := AppendRunEvent(id, None, EvRetryScheduled(delay));
      return None;
    }
  
    // -------------------------------------------------------------- completion and auto-chaining

    /** The guards of an auto-chain dispatch, one query after the other, and the insertion when all let it through. */
    method DispatchAutoChain(id: Id, o: Origin, f: FinishInput, now: int, newId: Id) returns (queued: bool)
      requires agents.Keys == policies.Keys && newId !in events
      modifies this`origins, this`runs, this`events, this`issued, this`stamp
      ensures Snapshot() == RunQueue.DispatchAutoChain(old(Snapshot()), id, o, f, now, newId)
      ensures queued == ChainTarget(old(Snapshot()), o, f, now).Some?
    {
      hide QueuedClash, SeenInChain, RecentChainRuns, Enqueue, InWorkspace;
      if f.mention.None? || o.issue !in homes || homes[o.issue] !in workspaces {
        return false;
      }
      var ws := workspaces[homes[o.issue]];
      var a := f.mention.value;
      if !ws.autoChain || a !in agents || agents[a].workspace != homes[o.issue] {
        return false;
      }
      var isMain := agents[a].isMain;
      if !isMain && o.depth >= NormalizeMaxDepth(ws.maxDepth) {
        return false;
      }
      if ws.dryRun {
        return false;
      }
      if ws.dailyRunLimit > 0 {
        var count := |RecentChainRuns(origins, homes, homes[o.issue], now - DAY_SECONDS)|;
        if count >= ws.dailyRunLimit {
          return false;
        }
      }
      if f.overBudget || QueuedClash(origins, runs, o.issue, a) {
        return false;
      }
      if !isMain && SeenInChain(origins, o.issue, a, o.chain) {
        return false;
      }
      var depth := if isMain then o.depth else o.depth + 1;
      InsertRun(newId, Origin(o.issue, a, Mention, Some(id), o.chain, depth, now, policies[a].maxAttempts, 0), true);
      return true;
    }

    /** The part of a completion that follows a successful execution. */
    method FinishDone(id: Id, f: FinishInput, now: int, newId: Id)
      requires KeysOK(Snapshot()) && Has(Snapshot(), id) && runs[id].status == Running && newId !in events
      modifies this`origins, this`runs, this`events, this`issued, this`stamp, this`issues, this`deliveries
      ensures Snapshot() == RunQueue.FinishDone(old(Snapshot()), id, f, now, newId)
    {
      hide RetireRows, RetireLogs, ChainTarget, RunQueue.DispatchAutoChain, Notify;
      var o := origins[id];
      var _ := EndRun(id, {Running}, Done, EvCompleted, now);
      RetireKeepsKeys(old(Snapshot()), {id}, Done, EvCompleted, now);
      var queued := DispatchAutoChain(id, o, f, now, newId);
      DispatchSparesIssues(Retire(old(Snapshot()), {id}, Done, EvCompleted, now), id, o, f, now, newId);
      DispatchSparesWorkspaces(Retire(old(Snapshot()), {id}, Done, EvCompleted, now), id, o, f, now, newId);
      var closes := !queued && o.issue in homes && homes[o.issue] in workspaces && workspaces[homes[o.issue]].autoClose;
      if closes {
        issues := issues[o.issue := IssueDone];
      }
      NotifyIssue(o.issue, HookRunCompleted);
      if closes {
        NotifyIssue(o.issue, HookIssueDone);
      }
    }

    /** Only a running run is completed; a run another path has ended is left alone. */
    method CompleteRunWithReason(id: Id, f: FinishInput, now: int, newId: Id) returns (err: Option<StoreError>)
      requires KeysOK(Snapshot()) && newId !in events
      modifies this`origins, this`runs, this`events, this`issued, this`stamp, this`issues, this`deliveries
      ensures err == ErrorOf(RunQueue.CompleteRunWithReason(old(Snapshot()), id, f, now, newId))
      ensures Snapshot() == Settle(old(Snapshot()), RunQueue.CompleteRunWithReason(old(Snapshot()), id, f, now, newId))
    {
      hide RetireRows, RetireLogs, RunQueue.FinishDone, Notify, AppendEvent;
      if id !in runs {
        return Some(NotFound);
      }
      if runs[id].status != Running {
        return None;
      }
      var issue := origins[id].issue;
      if f.stdoutTruncated {
        var _ := AppendRunEvent(id, None, EvStdoutTruncated);
      }
      if FinishStatus(f) == Done {
        FinishDone(id, f, now, newId);
      } else {
        var _ := EndRun(id, {Running}, Failed, EvFailed, now);
        NotifyIssue(issue, HookRunFailed);
      }
      return None;
    }

    /** A retry if the failure asks for one; a refusal other than a state error ends the call. */
    method RetryOrComplete(id: Id, x: Execution, now: int, newId: Id) returns (err: Option<StoreError>)
      requires KeysOK(Snapshot()) && newId !in events
      modifies this`origins, this`runs, this`events, this`issued, this`stamp, this`issues, this`deliveries
      ensures Snapshot() == RunQueue.RetryOrComplete(old(Snapshot()), id, x, now, newId)
      ensures err == RetryOrCompleteError(old(Snapshot()), id, x, now)
    {
      hide RunQueue.RescheduleRunForRetry, RunQueue.CompleteRunWithReason;
      var exitCode := if x.failed && x.exitCode == 0 then 1 else x.exitCode;
      var reason := ReasonOf(x);
      GrantedHas(Snapshot(), id, KindOf(reason), now);
      if exitCode != 0 || reason != ReasonCompleted {
        err := RescheduleRunForRetry(id, KindOf(reason), now);
        if err != Some(StateError) {
          return;
        }
      }
      CompleteError(Snapshot(), id, InputOf(x), now, newId);
      err := CompleteRunWithReason(id, FinishInput(exitCode, reason, x.stdoutTruncated, x.mention, x.overBudget), now, newId);
      return if err == Some(StateError) then None else err;
    }

    /** What the worker writes after an execution: a cancel, a retry, or the completion. */
    method FinishRun(id: Id, x: Execution, now: int, newId: Id) returns (err: Option<StoreError>)
      requires Valid() && newId !in issued
      modifies this
      ensures Snapshot() == Apply(old(Snapshot()), StFinish(id, x, now, newId)) && Valid()
      ensures err == FinishError(old(Snapshot()), id, x, now)
    {
      hide GraphOK, LivesOK, SettingsOK, RunQueue.RetryOrComplete, RetryOrCompleteError, AppendEvent, RetireRows, RetireLogs;
      StepKeeps(Snapshot(), StFinish(id, x, now, newId));
      ErrorFrame(Snapshot(), Note(Snapshot(), id, EvStdoutSanitized), id, x, now);
      if x.cancelled {
        err := CancelRunWithReason(id, now);
        return if err == Some(StateError) then None else err;
      }
      if x.sanitized && id in runs {
        var _ := AppendRunEvent(id, None, EvStdoutSanitized);
      }
      err := RetryOrComplete(id, x, now, newId);
    }

    // -------------------------------------------------------------- enqueueing

    /** Opens the issue and inserts a queued run on it. */
    method Reopen(issue: Id, id: Id, o: Origin)
      requires id !in events
      modifies this`origins, this`runs, this`events, this`issued, this`stamp, this`issues
      ensures Snapshot() == Enqueue(SetIssue(old(Snapshot()), issue, Open), id, o, true)
    {
      hide Enqueue;
      issues := issues[issue := Open];
      InsertRun(id, o, true);
    }

    method CreateIssueWithInitialRun(issue: Id, ws: Id, agent: Id, logged: bool, now: int, newId: Id) returns (err: Option<StoreError>)
      requires Valid() && newId !in issued
      modifies this
      ensures err == ErrorOf(RunQueue.CreateIssueWithInitialRun(old(Snapshot()), issue, ws, agent, logged, now, newId))
      ensures Snapshot() == Apply(old(Snapshot()), StCreateIssue(issue, ws, agent, logged, now, newId)) && Valid()
    {
      hide GraphOK, LivesOK, SettingsOK, Enqueue;
      StepKeeps(Snapshot(), StCreateIssue(issue, ws, agent, logged, now, newId));
      if ws !in workspaces || agent !in agents || agents[agent].workspace != ws {
        return Some(NotFound);
      }
      if issue in homes {
        return Some(Conflict);
      }
      homes, issues := homes[issue := ws], issues[issue := Open];
      var trigger := if logged then IssueCreated else Autopilot;
      InsertRun(newId, Origin(issue, agent, trigger, None, newId, 0, now, policies[agent].maxAttempts, 0), logged);
      return None;
    }

    method AddUserComment(issue: Id, agent: Id, now: int, newId: Id) returns (err: Option<StoreError>)
      requires Valid() && newId !in issued
      modifies this
      ensures err == ErrorOf(RunQueue.AddUserComment(old(Snapshot()), issue, agent, now, newId))
      ensures Snapshot() == Apply(old(Snapshot()), StComment(issue, agent, now, newId)) && Valid()
    {
      hide GraphOK, LivesOK, SettingsOK, Enqueue, QueuedClash;
      StepKeeps(Snapshot(), StComment(issue, agent, now, newId));
      if issue !in homes {
        return Some(NotFound);
      }
      if agent !in agents || agents[agent].workspace != homes[issue] {
        return None;
      }
      if QueuedClash(origins, runs, issue, agent) {
        return None;
      }
      Reopen(issue, newId, Origin(issue, agent, Mention, None, newId, 0, now, policies[agent].maxAttempts, 0));
      return None;
    }

    /** The transaction of a rerun. */
    method RerunTx(issue: Id, agent: Id, now: int, newId: Id) returns (err: Option<StoreError>)
      requires Valid() && newId !in issued
      modifies this
      ensures err == ErrorOf(RunQueue.RerunIssue(old(Snapshot()), issue, agent, now, newId))
      ensures Snapshot() == Apply(old(Snapshot()), StRerun(issue, agent, now, newId)) && Valid()
    {
      hide GraphOK, LivesOK, SettingsOK, Enqueue, QueuedClash;
      StepKeeps(Snapshot(), StRerun(issue, agent, now, newId));
      if issue !in homes || agent !in agents || agents[agent].workspace != homes[issue] {
        return Some(NotFound);
      }
      if QueuedClash(origins, runs, issue, agent) {
        return Some(Conflict);
      }
      Reopen(issue, newId, Origin(issue, agent, Rerun, None, newId, 0, now, policies[agent].maxAttempts, 0));
      return None;
    }

    /** The transaction of a chain retry. */
    method RetryChainTx(last: Id, now: int, newId: Id) returns (err: Option<StoreError>)
      requires Valid() && newId !in issued
      modifies this
      ensures err == ErrorOf(RunQueue.RetryFailedRunInChain(old(Snapshot()), last, now, newId))
      ensures Snapshot() == Apply(old(Snapshot()), StRetryChain(last, now, newId)) && Valid()
    {
      hide GraphOK, LivesOK, SettingsOK, Enqueue, QueuedClash;
      StepKeeps(Snapshot(), StRetryChain(last, now, newId));
      if last !in runs || runs[last].status != Failed {
        return Some(NotFound);
      }
      var o := origins[last];
      if o.issue !in homes || o.agent !in policies {
        return Some(NotFound);
      }
      if QueuedClash(origins, runs, o.issue, o.agent) {
        return Some(Conflict);
      }
      Reopen(o.issue, newId, Origin(o.issue, o.agent, Rerun, Some(last), o.chain, o.depth, now, policies[o.agent].maxAttempts, 0));
      return None;
    }

    /** The last of the wanted runs by the given times, if there is any; which of several equal ones is open. */
    method LastOf(wanted: set<Id>, major: map<Id, int>, minor: map<Id, int>) returns (last: Option<Id>)
      requires wanted <= major.Keys && wanted <= minor.Keys
      ensures last.None? <==> wanted == {}
      ensures last.Some? ==> IsLast(wanted, major, minor, last.value)
    {
      last := None;
      var todo := wanted;
      while todo != {}
        invariant todo <= wanted
        invariant last.None? <==> todo == wanted
        invariant last.Some? ==> IsLast(wanted - todo, major, minor, last.value)
        decreases todo
      {
        var id :| id in todo;
        if last.None? || major[id] > major[last.value] || (major[id] == major[last.value] && minor[id] > minor[last.value]) {
          last := Some(id);
        }
        todo := todo - {id};
      }
      assert wanted - {} == wanted;
    }

    /** A rerun of an idle issue by the chosen agent, or by the agent of its latest run. */
    method RerunIssue(issue: Id, choice: Option<Id>, now: int, newId: Id) returns (err: Option<StoreError>)
      requires Valid() && newId !in issued
      modifies this
      ensures Valid()
      ensures err.Some? ==> Snapshot() == old(Snapshot())
      ensures err == Some(StateError) <==> issue in old(homes) && HasActive(old(Snapshot()), issue)
      ensures err.None? <==> issue in old(homes) && !HasActive(old(Snapshot()), issue)
                             && if choice.Some? then AgentAt(old(Snapshot()), choice.value, old(homes)[issue]) else RunsOf(old(Snapshot()), issue) != {}
      ensures err.None? ==> exists agent :: RerunAgent(old(Snapshot()), issue, choice, agent)
                                            && Snapshot() == Apply(old(Snapshot()), StRerun(issue, agent, now, newId))
    {
      hide Inv, Apply, AnyRun, IsLast, AgentAt;
      ghost var db := Snapshot();
      if issue !in homes {
        return Some(NotFound);
      }
      if AnyRun(origins, runs, issue, {Queued, Running}) {
        return Some(StateError);
      }
      IdleHasNoClash(db, issue);
      var agent;
      if choice.Some? {
        agent := choice.value;
      } else {
        var last := LastOf(RunsOf(Snapshot(), issue), Enqueued(Snapshot()), Enqueued(Snapshot()));
        if last.None? {
          return Some(NotFound);
        }
        agent := origins[last.value].agent;
        LastAgentIsThere(db, issue, last.value);
      }
      assert RerunAgent(db, issue, choice, agent);
      RerunVerdict(db, issue, agent, now, newId);
      err := RerunTx(issue, agent, now, newId);
    }

    /** A retry of the most recently failed run of a chain in which nothing is active. */
    method RetryFailedRunInChain(chain: Id, now: int, newId: Id) returns (err: Option<StoreError>)
      requires Valid() && newId !in issued
      modifies this
      ensures Valid()
      ensures err.Some? ==> Snapshot() == old(Snapshot())
      ensures err == Some(StateError) <==> ActiveOf(old(Snapshot()), ChainMembers(old(Snapshot()), chain)) != {}
      ensures err == Some(NotFound) <==> ActiveOf(old(Snapshot()), ChainMembers(old(Snapshot()), chain)) == {}
                                         && FailedOf(old(Snapshot()), chain) == {}
      ensures err.None? ==> exists last :: LastFailed(old(Snapshot()), chain, last)
                                           && Snapshot() == Apply(old(Snapshot()), StRetryChain(last, now, newId))
    {
      hide Inv, Apply, IsLast, ActiveOf;
      ghost var db := Snapshot();
      if ActiveOf(Snapshot(), ChainMembers(Snapshot(), chain)) != {} {
        return Some(StateError);
      }
      var failed := FailedOf(Snapshot(), chain);
      var last := LastOf(failed, Finished(Snapshot()), Enqueued(Snapshot()));
      if last.None? {
        return Some(NotFound);
      }
      assert LastFailed(db, chain, last.value);
      RetryVerdict(db, last.value, now, newId);
      err := RetryChainTx(last.value, now, newId);
    }

    // -------------------------------------------------------------- issues

    /** Cancels the queued runs of an issue without a running one: all its active runs. */
    method CancelQueued(issue: Id, now: int)
      requires KeysOK(Snapshot()) && !HasRunning(Snapshot(), issue)
      modifies this`runs, this`events
      ensures Snapshot() == Retire(old(Snapshot()), RunsOf(old(Snapshot()), issue), Cancelled, EvCancelled, now)
    {
      hide Retire, AnyRun, Matching, KeysOK;
      ghost var db := Snapshot();
      var ids := SelectRuns(QueuedOf(Snapshot(), issue));
      var _ := EndAll(ids, {Queued}, Cancelled, EvCancelled, now);
      QueuedAreAll(db, ids, issue);
      RetireSame(db, Matching(db, ids, {Queued}), RunsOf(db, issue), Cancelled, EvCancelled, now);
    }

    /** Changes the status of an issue; cancelling it cancels its queued runs one by one. */
    method UpdateIssue(issue: Id, status: IssueStatus, now: int) returns (err: Option<StoreError>)
      requires Valid()
      modifies this`issues, this`runs, this`events, this`deliveries
      ensures err == ErrorOf(RunQueue.UpdateIssue(old(Snapshot()), issue, status, now))
      ensures Snapshot() == Apply(old(Snapshot()), StUpdateIssue(issue, status, now)) && Valid()
    {
      hide GraphOK, LivesOK, SettingsOK, Retire, AnyRun, Notify, Matching;
      ghost var db := Snapshot();
      StepKeeps(db, StUpdateIssue(issue, status, now));
      if issue !in homes {
        return Some(NotFound);
      }
      if status == IssueDone && AnyRun(origins, runs, issue, {Queued, Running}) {
        return Some(StateError);
      }
      if status == IssueCancelled && AnyRun(origins, runs, issue, {Running}) {
        return Some(StateError);
      }
      if status == IssueCancelled {
        CancelQueued(issue, now);
        RetireFrame(db, RunsOf(db, issue), Cancelled, EvCancelled, now);
      }
      issues := issues[issue := status];
      if status == IssueCancelled {
        NotifyIssue(issue, HookIssueCancelled);
      }
      return None;
    }

    /** Deletes an idle issue; its runs and their log rows go with it. */
    method DeleteIssue(issue: Id) returns (err: Option<StoreError>)
      requires Valid()
      modifies this`homes, this`issues, this`origins, this`runs, this`events
      ensures err == ErrorOf(RunQueue.DeleteIssue(old(Snapshot()), issue))
      ensures Snapshot() == Apply(old(Snapshot()), StDeleteIssue(issue)) && Valid()
    {
      hide Inv, AnyRun, RunsOf;
      StepKeeps(Snapshot(), StDeleteIssue(issue));
      if AnyRun(origins, runs, issue, {Queued, Running}) {
        return Some(StateError);
      }
      if issue !in homes {
        return Some(NotFound);
      }
      var gone := RunsOf(Snapshot(), issue);
      homes, issues := homes - {issue}, issues - {issue};
      origins, runs, events := origins - gone, runs - gone, events - gone;
      return None;
    }

    method HeartbeatRun(id: Id, now: int) returns (err: Option<StoreError>)
      requires Valid()
      modifies this`runs
      ensures err == if id in old(runs) && old(runs)[id].status == Running then None else Some(StateError)
      ensures Snapshot() == Apply(old(Snapshot()), StHeartbeat(id, now)) && Valid()
    {
      hide Inv;
      StepKeeps(Snapshot(), StHeartbeat(id, now));
      if id !in runs || runs[id].status != Running {
        return Some(StateError);
      }
      runs := runs[id := runs[id].(heartbeatAt := Some(now))];
      return None;
    }

    // -------------------------------------------------------------- webhook deliveries

    method MarkWebhookDeliveryDelivered(d: nat) returns (err: Option<StoreError>)
      requires Valid()
      modifies this`deliveries
      ensures err == ErrorOf(MarkDelivered(old(Snapshot()), d))
      ensures Snapshot() == Apply(old(Snapshot()), StDelivered(d)) && Valid()
    {
      hide Inv;
      StepKeeps(Snapshot(), StDelivered(d));
      if d >= |deliveries| || deliveries[d].status != Pending {
        return Some(StateError);
      }
      deliveries := deliveries[d := deliveries[d].(status := Delivered, attempt := deliveries[d].attempt + 1)];
      return None;
    }

    method MarkWebhookDeliveryFailure(d: nat) returns (err: Option<StoreError>)
      requires Valid()
      modifies this`deliveries
      ensures err == ErrorOf(MarkFailure(old(Snapshot()), d))
      ensures Snapshot() == Apply(old(Snapshot()), StDeliveryFailed(d)) && Valid()
    {
      hide Inv, Apply, MarkFailure, AfterFailure;
      StepKeeps(Snapshot(), StDeliveryFailed(d));
      FailureStep(Snapshot(), d);
      err := if d >= |deliveries| then Some(NotFound) else None;
      CountFailure(d);
    }

    /** The attempt of a pending delivery is counted, and the last one ends it. */
    method CountFailure(d: nat)
      modifies this`deliveries
      ensures deliveries == AfterFailure(old(deliveries), d, hookAttempts)
    {
      if d >= |deliveries| || deliveries[d].status != Pending {
        return;
      }
      var next := deliveries[d].attempt + 1;
      var status := if next >= hookAttempts then DeadLetter else Pending;
      deliveries := deliveries[d := deliveries[d].(status := status, attempt := next)];
    }

    method ResubmitWebhookDelivery(d: nat) returns (err: Option<StoreError>)
      requires Valid()
      modifies this`deliveries
      ensures err == ErrorOf(Resubmit(old(Snapshot()), d))
      ensures Snapshot() == Apply(old(Snapshot()), StResubmit(d)) && Valid()
    {
      hide Inv;
      StepKeeps(Snapshot(), StResubmit(d));
      if d >= |deliveries| {
        return Some(NotFound);
      }
      if deliveries[d].status != DeadLetter {
        return Some(StateError);
      }
      deliveries := deliveries[d := deliveries[d].(status := Pending, attempt := 0)];
      return None;
    }
  }

  lemma FailureStep(db: DB, d: nat)
    ensures ErrorOf(MarkFailure(db, d)) == if d < |db.deliveries| then None else Some(NotFound)
    ensures Apply(db, StDeliveryFailed(d)) == db.(deliveries := AfterFailure(db.deliveries, d, db.hookAttempts))
  {
    if d < |db.deliveries| && db.deliveries[d].status == Pending {}
  }

  function AfterFailure(ds: seq<Delivery>, d: nat, most: nat): seq<Delivery> {
    if d >= |ds| || ds[d].status != Pending then ds
    else
      var next := ds[d].attempt + 1;
      ds[d := ds[d].(status := if next >= most then DeadLetter else Pending, attempt := next)]
  }

  /** What a finish reports: an unknown run, or the refusal of its retry; a run another path has ended is no error. */
  function RetryOrCompleteError(db: DB, id: Id, x: Execution, now: int): Option<StoreError> {
    var retry := RunQueue.RescheduleRunForRetry(db, id, KindOf(ReasonOf(x)), now);
    if WantsRetry(x) && retry.Err? && retry.error != StateError then Some(retry.error)
    else if !Has(db, id) then Some(NotFound)
    else None
  }

  function FinishError(db: DB, id: Id, x: Execution, now: int): Option<StoreError> {
    if !x.cancelled then RetryOrCompleteError(db, id, x, now) else if Has(db, id) then None else Some(NotFound)
  }

  lemma CompleteError(db: DB, id: Id, f: FinishInput, now: int, newId: Id)
    ensures ErrorOf(RunQueue.CompleteRunWithReason(db, id, f, now, newId)) == if Has(db, id) then None else Some(NotFound)
  {
    hide RunQueue.FinishDone, Notify, Retire;
  }

  lemma GrantedHas(db: DB, id: Id, kind: FailureKind, now: int)
    ensures RunQueue.RescheduleRunForRetry(db, id, kind, now).Ok? ==> Has(db, id)
  {
    hide QueuedClash, ValidPolicy, ShouldRetry, AppendEvent;
  }

  lemma ErrorFrame(db: DB, noted: DB, id: Id, x: Execution, now: int)
    requires noted == db.(events := noted.events)
    ensures RetryOrCompleteError(noted, id, x, now) == RetryOrCompleteError(db, id, x, now)
  {
    hide QueuedClash, ValidPolicy, ShouldRetry, BackoffSeconds, AppendEvent;
  }

  /** No wanted run is later, by the first time and then by the second. */
  predicate IsLast(wanted: set<Id>, major: map<Id, int>, minor: map<Id, int>, last: Id)
    requires wanted <= major.Keys && wanted <= minor.Keys
  {
    && last in wanted
    && forall id :: id in wanted ==> major[id] < major[last] || (major[id] == major[last] && minor[id] <= minor[last])
  }

  function Enqueued(db: DB): map<Id, int> { map id | id in db.origins :: db.origins[id].enqueuedAt }

  function Finished(db: DB): map<Id, int> {
    map id | id in db.runs :: if db.runs[id].finishedAt.Some? then db.runs[id].finishedAt.value else 0
  }

  /** The agent a rerun takes. */
  ghost predicate RerunAgent(db: DB, issue: Id, choice: Option<Id>, agent: Id) {
    if choice.Some? then agent == choice.value
    else exists last :: IsLast(RunsOf(db, issue), Enqueued(db), Enqueued(db), last) && db.origins[last].agent == agent
  }

  function FailedOf(db: DB, chain: Id): set<Id> {
    set id | id in db.runs && id in db.origins && db.origins[id].chain == chain && db.runs[id].status == Failed
  }

  ghost predicate LastFailed(db: DB, chain: Id, last: Id) {
    IsLast(FailedOf(db, chain), Finished(db), Enqueued(db), last)
  }

  lemma IdleHasNoClash(db: DB, issue: Id)
    requires !HasActive(db, issue)
    ensures forall a :: !QueuedClash(db.origins, db.runs, issue, a)
  {
  }

  lemma LastAgentIsThere(db: DB, issue: Id, last: Id)
    requires Inv(db) && issue in db.homes && last in RunsOf(db, issue)
    ensures AgentAt(db, db.origins[last].agent, db.homes[issue])
  {
    hide LivesOK, LinksOK, DispatchedOnce;
    assert OriginRefs(db.origins[last], db.homes, db.agents, db.stamp);
  }

  lemma RerunVerdict(db: DB, issue: Id, agent: Id, now: int, newId: Id)
    requires issue in db.homes && !QueuedClash(db.origins, db.runs, issue, agent)
    ensures ErrorOf(RunQueue.RerunIssue(db, issue, agent, now, newId)) == if AgentAt(db, agent, db.homes[issue]) then None else Some(NotFound)
    ensures !AgentAt(db, agent, db.homes[issue]) ==> Apply(db, StRerun(issue, agent, now, newId)) == db
  {
    hide Enqueue, QueuedClash;
  }

  lemma RetryVerdict(db: DB, last: Id, now: int, newId: Id)
    requires Inv(db) && Has(db, last) && db.runs[last].status == Failed
    ensures var e := ErrorOf(RunQueue.RetryFailedRunInChain(db, last, now, newId));
            e.None? || (e == Some(Conflict) && Apply(db, StRetryChain(last, now, newId)) == db)
  {
    hide LivesOK, LinksOK, DispatchedOnce, Enqueue, QueuedClash;
    assert OriginRefs(db.origins[last], db.homes, db.agents, db.stamp);
  }

  function QueuedOf(db: DB, issue: Id): set<Id> {
    set id | id in db.runs && id in db.origins && db.origins[id].issue == issue && db.runs[id].status == Queued
  }

  /** Where nothing runs, the queued runs of an issue are its active ones. */
  lemma QueuedAreAll(db: DB, ids: seq<Id>, issue: Id)
    requires KeysOK(db) && !AnyRun(db.origins, db.runs, issue, {Running}) && forall id :: id in ids <==> id in QueuedOf(db, issue)
    ensures forall id :: id in db.runs && IsActive(db.runs[id].status) ==> (id in Matching(db, ids, {Queued}) <==> id in RunsOf(db, issue))
  {
  }

  lemma RetireFrame(db: DB, ids: set<Id>, status: Status, kind: EventKind, now: int)
    ensures var db' := Retire(db, ids, status, kind, now);
            db' == db.(runs := db'.runs, events := db'.events)
  {
    hide RetireRows, RetireLogs;
  }

  lemma DispatchSparesWorkspaces(db: DB, id: Id, o: Origin, f: FinishInput, now: int, newId: Id)
    ensures RunQueue.DispatchAutoChain(db, id, o, f, now, newId).workspaces == db.workspaces
  {
    hide ChainTarget, AppendEvent;
  }

  function ActiveOf(db: DB, ids: set<Id>): set<Id> {
    set id | id in ids && id in db.runs && IsActive(db.runs[id].status)
  }

  /** The listed runs that a guard on the status finds. */
  function Matching(db: DB, ids: seq<Id>, from: set<Status>): set<Id> {
    set id | id in ids && id in db.runs && db.runs[id].status in from
  }

  lemma MatchingAll(db: DB, ids: seq<Id>, wanted: set<Id>, from: set<Status>)
    requires from == {Queued, Running} && forall id :: id in ids <==> id in ActiveOf(db, wanted)
    ensures Matching(db, ids, from) == ActiveOf(db, wanted)
  {
  }

  /** One iteration: the guard finds the row exactly if it matched and was not ended by an earlier iteration. */
  lemma EndAllStep(db: DB, ids: seq<Id>, i: nat, from: set<Status>, status: Status, kind: EventKind, now: int)
    requires KeysOK(db) && i < |ids| && from <= {Queued, Running} && !IsActive(status)
    ensures var done, more := Matching(db, ids[..i], from), Matching(db, ids[..i + 1], from);
            var sofar := Retire(db, done, status, kind, now);
            && KeysOK(sofar) && KeysOK(Retire(db, more, status, kind, now))
            && if ids[i] in sofar.runs && sofar.runs[ids[i]].status in from
               then |more| == |done| + 1 && Retire(sofar, {ids[i]}, status, kind, now) == Retire(db, more, status, kind, now)
               else more == done
  {
    hide RetireRows, RetireLogs;
    var done, more := Matching(db, ids[..i], from), Matching(db, ids[..i + 1], from);
    RetiredStatus(db, done, ids[i], status, kind, now);
    RetireKeepsKeys(db, done, status, kind, now);
    RetireKeepsKeys(db, more, status, kind, now);
    RetireOneMore(db, done, ids[i], status, kind, now);
    if ids[i] in db.runs && db.runs[ids[i]].status in from {
      assert more == done + {ids[i]};
    } else {
      assert more == done;
    }
  }

  lemma RetiredStatus(db: DB, ids: set<Id>, id: Id, status: Status, kind: EventKind, now: int)
    ensures id in Retire(db, ids, status, kind, now).runs <==> id in db.runs
    ensures id in db.runs ==> Retire(db, ids, status, kind, now).runs[id].status
                              == if id in ids && IsActive(db.runs[id].status) then status else db.runs[id].status
  {
    hide RetireLogs;
  }

  lemma RetireKeepsKeys(db: DB, ids: set<Id>, status: Status, kind: EventKind, now: int)
    requires KeysOK(db)
    ensures KeysOK(Retire(db, ids, status, kind, now))
  {
    hide AppendEvent;
  }

  lemma EligibleHas(db: DB, now: int, id: Id)
    ensures Eligible(db, now, id) ==> id in db.runs && id in db.origins
  {
  }

  lemma NextIsQueued(db: DB, now: int)
    ensures NextRun(db, now).Some? ==> Has(db, NextRun(db, now).value)
  {
  }

  /** What the scan has found is what the claim query selects. */
  lemma ScanFinds(db: DB, now: int, next: Option<Id>)
    requires next.None? ==> forall id :: id in db.runs ==> !Eligible(db, now, id)
    requires next.Some? ==> next.value in db.origins && Eligible(db, now, next.value)
    requires next.Some? ==> forall id :: (id in db.runs && id != next.value && Eligible(db, now, id))
                                          ==> id in db.origins && Before(db.origins[next.value], next.value, db.origins[id], id)
    ensures next == NextRun(db, now)
  {
    hide Eligible;
    forall id
      ensures Eligible(db, now, id) ==> id in db.runs && id in db.origins
    {
      EligibleHas(db, now, id);
    }
    NextRunExists(db, now);
    if next.Some? {
      assert IsNext(db, now, next.value);
    }
  }
}
