/**
 The queue's transition tables over every history, stated on the columns of the tables alone: what becomes of every run row
 and every issue, and which rows are inserted.
 */
module QueueTables {
  import opened Common
  import opened RetryPolicies
  import opened RunQueue
  import opened QueueInvariant
  import opened QueueEvolution
  import opened QueueLifecycle
  import opened QueueExclusion
  import opened QueueOutcomes

  // ---------------------------------------------------------------- conditions on columns

  ghost predicate NoneWaiting(db: DB, issue: Id, agent: Id) {
    forall x :: (x in db.runs && x in db.origins && db.origins[x].issue == issue && db.origins[x].agent == agent)
                ==> db.runs[x].status != Queued
  }

  ghost predicate NoneRunning(db: DB, issue: Id) {
    forall x :: x in db.runs && x in db.origins && db.origins[x].issue == issue ==> db.runs[x].status != Running
  }

  ghost predicate NoneActive(db: DB, issue: Id) {
    forall x :: x in db.runs && x in db.origins && db.origins[x].issue == issue
                ==> db.runs[x].status != Queued && db.runs[x].status != Running
  }

  predicate Works(db: DB, agent: Id, ws: Id) { agent in db.agents && db.agents[agent].workspace == ws }

  /** Attempts are left, the failure is a timeout or a process that never started, and the policy retries that kind. */
  ghost predicate Granted(db: DB, id: Id, x: Execution)
    requires Has(db, id)
  {
    && db.runs[id].attempt < db.origins[id].maxAttempts
    && (x.timedOut || (x.failed && !x.processStarted))
    && db.origins[id].agent in db.policies
    && (var p := db.policies[db.origins[id].agent];
        p.retryOn.Some? ==> (if x.timedOut then TimeoutKind else ExecutorErrorKind) in p.retryOn.value)
  }

  /** The wait after an attempt: its entry of the schedule, the last entry beyond it, and 10, 60, 300 s without a schedule. */
  function WaitAfter(p: RetryPolicy, attempt: int): int {
    if attempt < 1 then 0
    else if p.backoff == [] then (if attempt == 1 then 10 else if attempt == 2 then 60 else 300)
    else if attempt <= |p.backoff| then p.backoff[attempt - 1]
    else p.backoff[|p.backoff| - 1]
  }

  /** Everything that lets a completed run hand over to the agent `a`. */
  ghost predicate MayDispatch(db: DB, run: Id, a: Id, overBudget: bool, now: int)
    requires Has(db, run)
  {
    var o := db.origins[run];
    && o.issue in db.homes && db.homes[o.issue] in db.workspaces
    && (var ws, w := db.homes[o.issue], db.workspaces[db.homes[o.issue]];
        && w.autoChain && !w.dryRun && !overBudget
        && a in db.agents && db.agents[a].workspace == ws
        && (db.agents[a].isMain || o.depth < (if w.maxDepth <= 0 then 5 else if w.maxDepth > 20 then 20 else w.maxDepth))
        && (w.dailyRunLimit <= 0
            || |set x | x in db.origins && db.origins[x].issue in db.homes && db.homes[db.origins[x].issue] == ws
                        && db.origins[x].depth > 0 && db.origins[x].enqueuedAt >= now - 86400| < w.dailyRunLimit)
        && NoneWaiting(db, o.issue, a)
        && (db.agents[a].isMain
            || forall x :: x in db.origins && db.origins[x].issue == o.issue && db.origins[x].agent == a
                           ==> db.origins[x].chain != o.chain && x != o.chain))
  }

  /** The completion of `run` hands over to the agent its comment mentions. */
  ghost predicate HandsOver(db: DB, run: Id, x: Execution, now: int) {
    && Has(db, run) && db.runs[run].status == Running && !x.cancelled && !x.timedOut && !x.failed && x.exitCode == 0
    && x.mention.Some? && MayDispatch(db, run, x.mention.value, x.overBudget, now)
  }

  // ---------------------------------------------------------------- the tables

  /** What a worker's report makes of its run. */
  ghost function StatusAfterFinish(db: DB, id: Id, x: Execution): Status
    requires Has(db, id)
  {
    var s := db.runs[id].status;
    if s != Queued && s != Running then s
    else if x.cancelled then Cancelled
    else if s == Queued then Queued
    else if !x.timedOut && !x.failed && x.exitCode == 0 then Done
    else if !Granted(db, id, x) then Failed
    else if NoneWaiting(db, db.origins[id].issue, db.origins[id].agent) then Queued
    else Running
  }

  ghost function StatusAfter(db: DB, step: Step, id: Id): Status
    requires Has(db, id)
  {
    var o, s := db.origins[id], db.runs[id].status;
    var active := s == Queued || s == Running;
    match step
    case StClaim(now) => if ComesFirst(db, now, id) then Running else s
    case StFinish(run, x, _, _) => if run == id then StatusAfterFinish(db, id, x) else s
    case StFailInfrastructure(run, _, _) => if run == id && active then Failed else s
    case StCancel(run, _) => if run == id && active then Cancelled else s
    case StCancelChain(chain, _) => if o.chain == chain && active then Cancelled else s
    case StRecoverStale(ids, _) => if id in ids && s == Running then Cancelled else s
    case StRecoverOrphans(_) => if s == Running then Cancelled else s
    case StUpdateIssue(issue, status, _) =>
      if o.issue == issue && status == IssueCancelled && s == Queued && NoneRunning(db, issue) then Cancelled else s
    case _ => s
  }

  /** The whole row after a step; the policy consulted is the one of the run's agent. */
  ghost function RowAfter(db: DB, step: Step, id: Id): Life
    requires Has(db, id)
  {
    var r, s := db.runs[id], StatusAfter(db, step, id);
    if step.StHeartbeat? && step.run == id && r.status == Running then r.(heartbeatAt := Some(step.now))
    else if s == r.status || !ReadsClock(step) then r
    else if s == Running then r.(status := Running, claimedAt := Some(step.now), heartbeatAt := Some(step.now))
    else if s == Queued then
      var wait := if db.origins[id].agent in db.policies then WaitAfter(db.policies[db.origins[id].agent], r.attempt) else 0;
      Life(Queued, None, None, None, r.attempt + 1, Some(step.now + wait))
    else r.(status := s, finishedAt := Some(step.now))
  }

  ghost function IssueAfter(db: DB, step: Step, issue: Id): IssueStatus
    requires issue in db.issues && issue in db.homes
  {
    var s := db.issues[issue];
    match step
    case StUpdateIssue(i, status, _) =>
      if i == issue && (status == IssueDone ==> NoneActive(db, issue)) && (status == IssueCancelled ==> NoneRunning(db, issue))
      then status else s
    case StComment(i, agent, _, _) =>
      if i == issue && Works(db, agent, db.homes[issue]) && NoneWaiting(db, issue, agent) then Open else s
    case StRerun(i, agent, _, _) =>
      if i == issue && Works(db, agent, db.homes[issue]) && NoneWaiting(db, issue, agent) then Open else s
    case StRetryChain(last, _, _) =>
      if Has(db, last) && db.runs[last].status == Failed && db.origins[last].issue == issue
         && NoneWaiting(db, issue, db.origins[last].agent) then Open else s
    case StFinish(run, x, now, _) =>
      if (Has(db, run) && db.runs[run].status == Running && !x.cancelled && !x.timedOut && !x.failed && x.exitCode == 0
          && db.origins[run].issue == issue && !HandsOver(db, run, x, now)
          && db.homes[issue] in db.workspaces && db.workspaces[db.homes[issue]].autoClose)
      then IssueDone else s
    case _ => s
  }

  /** The step inserts a run under its new id. */
  ghost predicate Inserts(db: DB, step: Step)
    requires HasNewId(step)
  {
    match step
    case StCreateIssue(issue, ws, agent, _, _, _) => ws in db.workspaces && Works(db, agent, ws) && issue !in db.homes
    case StComment(issue, agent, _, _) =>
      issue in db.homes && Works(db, agent, db.homes[issue]) && NoneWaiting(db, issue, agent)
    case StRerun(issue, agent, _, _) =>
      issue in db.homes && Works(db, agent, db.homes[issue]) && NoneWaiting(db, issue, agent)
    case StRetryChain(last, _, _) =>
      Has(db, last) && db.runs[last].status == Failed && NoneWaiting(db, db.origins[last].issue, db.origins[last].agent)
    case StFinish(run, x, now, _) => HandsOver(db, run, x, now)
  }

  function AttemptsOf(db: DB, agent: Id): int { if agent in db.policies then db.policies[agent].maxAttempts else 0 }

  /** The columns of that row, `born` being its insertion number. */
  ghost function InsertedRow(db: DB, step: Step): Origin
    requires HasNewId(step) && Inserts(db, step)
  {
    match step
    case StCreateIssue(issue, _, agent, logged, now, newId) =>
      Origin(issue, agent, if logged then IssueCreated else Autopilot, None, newId, 0, now, AttemptsOf(db, agent), db.stamp)
    case StComment(issue, agent, now, newId) => Origin(issue, agent, Mention, None, newId, 0, now, AttemptsOf(db, agent), db.stamp)
    case StRerun(issue, agent, now, newId) => Origin(issue, agent, Rerun, None, newId, 0, now, AttemptsOf(db, agent), db.stamp)
    case StRetryChain(last, now, _) =>
      var o := db.origins[last];
      Origin(o.issue, o.agent, Rerun, Some(last), o.chain, o.depth, now, AttemptsOf(db, o.agent), db.stamp)
    case StFinish(run, x, now, _) =>
      var o, a := db.origins[run], x.mention.value;
      Origin(o.issue, a, Mention, Some(run), o.chain, o.depth + (if db.agents[a].isMain then 0 else 1), now, AttemptsOf(db, a), db.stamp)
  }

  // ---------------------------------------------------------------- the conditions are the transactions' decisions

  lemma WaitingIff(db: DB, issue: Id, agent: Id)
    ensures NoneWaiting(db, issue, agent) <==> !QueuedClash(db.origins, db.runs, issue, agent)
  {
  }

  lemma RunningIff(db: DB, issue: Id)
    ensures NoneRunning(db, issue) <==> !HasRunning(db, issue)
  {
  }

  lemma ActiveIff(db: DB, issue: Id)
    ensures NoneActive(db, issue) <==> !HasActive(db, issue)
  {
  }

  lemma WorksIff(db: DB, agent: Id, ws: Id)
    requires KeysOK(db)
    ensures Works(db, agent, ws) <==> AgentAt(db, agent, ws)
  {
  }

  lemma WaitIs(p: RetryPolicy, attempt: int)
    requires attempt >= 1
    ensures WaitAfter(p, attempt) == BackoffSeconds(attempt, p)
  {
  }

  lemma GrantedIff(db: DB, id: Id, x: Execution)
    requires Inv(db) && Has(db, id) && !x.cancelled && !Clean(x)
    ensures Granted(db, id, x) <==> Retryable(db, id, x)
  {
    hide GraphOK, LivesOK, SettingsOK;
    CleanIsDone(x);
    RowAt(db, id);
    RowBounds(db.origins[id].maxAttempts, db.runs[id], db.events[id]);
    AgentHasPolicy(db, id);
    KindIs(x);
    var p := db.policies[db.origins[id].agent];
    if p.retryOn.Some? && KindOf(ReasonOf(x)) in p.retryOn.value {
      var k :| 0 <= k < |p.retryOn.value| && p.retryOn.value[k] == KindOf(ReasonOf(x));
    }
  }

  lemma KindIs(x: Execution)
    ensures IsRetryableKind(KindOf(ReasonOf(x))) <==> x.timedOut || (x.failed && !x.processStarted)
    ensures IsRetryableKind(KindOf(ReasonOf(x))) ==> KindOf(ReasonOf(x)) == if x.timedOut then TimeoutKind else ExecutorErrorKind
  {
  }

  lemma TargetIff(db: DB, run: Id, f: FinishInput, now: int, a: Id)
    requires KeysOK(db) && Has(db, run)
    ensures ChainTarget(db, db.origins[run], f, now) == Some(a) <==> f.mention == Some(a) && MayDispatch(db, run, a, f.overBudget, now)
  {
    hide QueuedClash;
    var o := db.origins[run];
    WaitingIff(db, o.issue, a);
    if o.issue in db.homes {
      var ws := db.homes[o.issue];
      assert RecentChainRuns(db.origins, db.homes, ws, now - DAY_SECONDS)
             == set x | x in db.origins && db.origins[x].issue in db.homes && db.homes[db.origins[x].issue] == ws
                        && db.origins[x].depth > 0 && db.origins[x].enqueuedAt >= now - 86400;
    }
  }

  lemma HandsOverIff(db: DB, run: Id, x: Execution, now: int)
    requires KeysOK(db)
    ensures HandsOver(db, run, x, now) <==> Dispatches(db, run, x, now)
    ensures HandsOver(db, run, x, now) ==> ChainTarget(db, db.origins[run], InputOf(x), now) == x.mention
  {
    hide MayDispatch, ChainTarget, KeysOK;
    if Has(db, run) {
      var target := ChainTarget(db, db.origins[run], InputOf(x), now);
      if target.Some? {
        TargetIff(db, run, InputOf(x), now, target.value);
      }
      if x.mention.Some? {
        TargetIff(db, run, InputOf(x), now, x.mention.value);
      }
    }
  }

  // ---------------------------------------------------------------- run rows

  lemma FinishStatusIs(db: DB, id: Id, x: Execution)
    requires Inv(db) && Has(db, id)
    ensures StatusAfterFinish(db, id, x) == FinishFate(db, id, x)
  {
    hide Inv, Granted, Retryable, NoneWaiting, QueuedClash;
    WaitingIff(db, db.origins[id].issue, db.origins[id].agent);
    if !x.cancelled && !Clean(x) {
      GrantedIff(db, id, x);
    }
  }

  lemma StatusIs(db: DB, step: Step, id: Id)
    requires Inv(db) && Has(db, id)
    ensures StatusAfter(db, step, id) == Fate(db, step, id)
  {
    hide Inv, FinishFate, StatusAfterFinish, ComesFirst, IsNext, HasRunning, NoneRunning;
    match step
    case StClaim(now) => ComesFirstIff(db, now, id);
    case StFinish(run, x, _, _) => FinishStatusIs(db, id, x);
    case StUpdateIssue(issue, _, _) => RunningIff(db, issue);
    case _ =>
  }

  lemma RowIs(db: DB, step: Step, id: Id)
    requires Inv(db) && Has(db, id)
    ensures RowAfter(db, step, id) == RowFate(db, step, id)
  {
    hide GraphOK, LivesOK, SettingsOK, StatusAfter, Fate, BackoffSeconds, WaitAfter, RowOK, TallyOf, ValidPolicy;
    StatusIs(db, step, id);
    RowAt(db, id);
    RowShape(db.origins[id].maxAttempts, db.runs[id], db.events[id]);
    AgentHasPolicy(db, id);
    WaitIs(db.policies[db.origins[id].agent], db.runs[id].attempt);
    FateOfFinished(db, step, id);
  }

  lemma RowShape(m: int, r: Life, es: seq<Event>)
    requires RowOK(m, r, es)
    ensures r.attempt >= 1 && (IsActive(r.status) ==> r.finishedAt.None?)
  {
  }

  /** Only a running run goes back to the queue, and a heartbeat changes no status. */
  lemma FateOfFinished(db: DB, step: Step, id: Id)
    requires Has(db, id)
    ensures Fate(db, step, id) == Queued ==> IsActive(db.runs[id].status)
    ensures !ReadsClock(step) || step.StHeartbeat? ==> Fate(db, step, id) == db.runs[id].status
  {
    hide IsNext, QueuedClash, Retryable, HasRunning;
  }

  /** The run goes with its idle issue. */
  ghost predicate Goes(db: DB, step: Step, id: Id)
    requires Has(db, id)
  {
    step == StDeleteIssue(db.origins[id].issue) && NoneActive(db, db.origins[id].issue)
  }

  /**
   For every run in every step of every history: the row disappears exactly with its idle issue, and otherwise the whole row
   after the step is the one of the table. So a run is claimed, requeued, done, failed or cancelled by exactly the listed
   steps, with exactly those times, and by nothing else.
   */
  lemma EveryRow(dbs: seq<DB>, steps: seq<Step>, i: nat, id: Id)
    requires IsHistory(dbs, steps) && i < |steps| && Has(dbs[i], id)
    ensures id in dbs[i + 1].runs <==> !Goes(dbs[i], steps[i], id)
    ensures id in dbs[i + 1].runs ==> dbs[i + 1].runs[id] == RowAfter(dbs[i], steps[i], id)
  {
    hide Apply, Inv, RowAfter, RowFate, NoneActive, HasActive;
    HistoryInv(dbs, steps, i);
    StepFate(dbs[i], steps[i], id);
    RowIs(dbs[i], steps[i], id);
    ActiveIff(dbs[i], dbs[i].origins[id].issue);
  }

  // ---------------------------------------------------------------- issues

  lemma IssueIs(db: DB, step: Step, issue: Id)
    requires Inv(db) && issue in db.issues && issue in db.homes
    ensures IssueAfter(db, step, issue) == IssueFate(db, step, issue)
  {
    hide GraphOK, LivesOK, SettingsOK, NoneWaiting, QueuedClash, NoneRunning, HasRunning, NoneActive, HasActive, Works, AgentAt, Closes, HandsOver;
    match step
    case StUpdateIssue(i, _, _) =>
      RunningIff(db, issue);
      ActiveIff(db, issue);
    case StComment(i, agent, _, _) =>
      WorksIff(db, agent, db.homes[issue]);
      WaitingIff(db, issue, agent);
    case StRerun(i, agent, _, _) =>
      WorksIff(db, agent, db.homes[issue]);
      WaitingIff(db, issue, agent);
    case StRetryChain(last, _, _) =>
      if Has(db, last) {
        WaitingIff(db, issue, db.origins[last].agent);
      }
    case StFinish(run, x, now, newId) => FinishIssueIs(db, run, x, now, newId, issue);
    case _ =>
  }

  lemma FinishIssueIs(db: DB, run: Id, x: Execution, now: int, newId: Id, issue: Id)
    requires Inv(db) && issue in db.issues && issue in db.homes
    ensures IssueAfter(db, StFinish(run, x, now, newId), issue) == IssueFate(db, StFinish(run, x, now, newId), issue)
  {
    hide GraphOK, LivesOK, SettingsOK, HandsOver, Dispatches;
    HandsOverIff(db, run, x, now);
  }

  /** For every issue in every step of every history: closed, cancelled, reopened and deleted in exactly the listed cases. */
  lemma EveryIssue(dbs: seq<DB>, steps: seq<Step>, i: nat, issue: Id)
    requires IsHistory(dbs, steps) && i < |steps| && issue in dbs[i].issues
    ensures issue in dbs[i].homes
    ensures issue in dbs[i + 1].issues <==> !(steps[i] == StDeleteIssue(issue) && NoneActive(dbs[i], issue))
    ensures issue in dbs[i + 1].issues ==> dbs[i + 1].issues[issue] == IssueAfter(dbs[i], steps[i], issue)
  {
    hide Apply, GraphOK, LivesOK, SettingsOK, IssueAfter, IssueFate, NoneActive, HasActive;
    HistoryInv(dbs, steps, i);
    StepIssueFate(dbs[i], steps[i], issue);
    IssueIs(dbs[i], steps[i], issue);
    ActiveIff(dbs[i], issue);
  }

  // ---------------------------------------------------------------- new rows

  lemma InsertsIff(db: DB, step: Step)
    requires Inv(db) && HasNewId(step)
    ensures Inserts(db, step) <==> Births(db, step)
    ensures Inserts(db, step) ==> InsertedRow(db, step) == Newborn(db, step)
  {
    hide GraphOK, LivesOK, SettingsOK, NoneWaiting, QueuedClash, MayDispatch, ChainTarget;
    match step
    case StCreateIssue(_, ws, agent, _, _, _) => WorksIff(db, agent, ws);
    case StComment(issue, agent, _, _) =>
      WaitingIff(db, issue, agent);
      if issue in db.homes {
        WorksIff(db, agent, db.homes[issue]);
      }
    case StRerun(issue, agent, _, _) =>
      WaitingIff(db, issue, agent);
      if issue in db.homes {
        WorksIff(db, agent, db.homes[issue]);
      }
    case StRetryChain(last, _, _) =>
      if Has(db, last) {
        WaitingIff(db, db.origins[last].issue, db.origins[last].agent);
      }
    case StFinish(run, x, now, _) =>
      HandsOverIff(db, run, x, now);
      if HandsOver(db, run, x, now) {
        DispatchedWorks(db, run, x, now);
      }
  }

  lemma DispatchedWorks(db: DB, run: Id, x: Execution, now: int)
    requires HandsOver(db, run, x, now)
    ensures x.mention.value in db.agents
  {
    hide NoneWaiting;
  }

  /**
   In every step of every history a run is inserted exactly under the step's new id and when the guards, on the columns,
   allow it; and the new row has exactly the listed columns. In particular a clean finish hands over to the mentioned agent
   if and only if auto-chaining is on and not dry, the agent is in the workspace, depth, daily limit and budget allow it, no
   run of it waits on the issue, and, unless it is the main agent, it has had no run in the chain.
   */
  lemma EveryInsertion(dbs: seq<DB>, steps: seq<Step>, i: nat, id: Id)
    requires IsHistory(dbs, steps) && i < |steps| && id !in dbs[i].runs
    ensures id in dbs[i + 1].runs <==> HasNewId(steps[i]) && id == steps[i].newId && Inserts(dbs[i], steps[i])
    ensures id in dbs[i + 1].runs ==>
              id in dbs[i + 1].origins && dbs[i + 1].origins[id] == InsertedRow(dbs[i], steps[i])
              && dbs[i + 1].runs[id] == Life(Queued, None, None, None, 1, None)
  {
    hide Apply, Inv, Inserts, Births, InsertedRow, Newborn;
    HistoryInv(dbs, steps, i);
    StepBirth(dbs[i], steps[i], id);
    if HasNewId(steps[i]) {
      InsertsIff(dbs[i], steps[i]);
    }
  }

  // ---------------------------------------------------------------- new issues and settings

  lemma EnqueueHomes(db: DB, step: Step)
    requires KeysOK(db) && IsEnqueueStep(step)
    ensures var db' := ApplyEnqueue(db, step);
            if step.StCreateIssue? && Inserts(db, step)
            then db'.homes == db.homes[step.issue := step.ws] && db'.issues == db.issues[step.issue := Open]
            else db'.homes == db.homes
  {
    hide QueuedClash, AppendEvent;
  }

  lemma RetireHomes(db: DB, step: Step)
    requires IsRetireStep(step)
    ensures ApplyRetire(db, step).homes == db.homes
  {
    hide RetireRows, RetireLogs, FanOut, UpdateIssue;
    if step.StUpdateIssue? {
      UpdateSettings(db, step.issue, step.status, step.now);
    }
  }

  lemma OtherHomes(db: DB, step: Step)
    requires step.StClaim? || step.StNote? || step.StHeartbeat? || step.StDeleteIssue?
    ensures forall i :: i in Apply(db, step).homes ==> i in db.homes && Apply(db, step).homes[i] == db.homes[i]
  {
    hide AppendEvent, NextRun, AnyRun;
  }

  lemma StepHomes(db: DB, step: Step, issue: Id)
    requires Inv(db) && Fresh(db, step)
    ensures issue in Apply(db, step).homes && issue !in db.homes
            <==> step.StCreateIssue? && step.issue == issue && Inserts(db, step)
    ensures issue in Apply(db, step).homes ==> Apply(db, step).homes[issue] == if issue in db.homes then db.homes[issue] else step.ws
    ensures issue in Apply(db, step).homes && issue !in db.homes ==> issue in Apply(db, step).issues && Apply(db, step).issues[issue] == Open
  {
    hide GraphOK, LivesOK, SettingsOK, Inserts;
    hide ApplyEnqueue, ApplyRetire, ApplySettings, ClaimNextRun, FinishRun, DeleteIssue, Note, Heartbeat;
    if IsEnqueueStep(step) {
      EnqueueHomes(db, step);
      if step.StCreateIssue? && Inserts(db, step) {
        CreateNeedsNew(db, step);
      }
    } else if IsRetireStep(step) {
      RetireHomes(db, step);
    } else if IsSettingsStep(step) {
      SettingsSpareQueue(db, step);
    } else if step.StFinish? {
      FinishIssues(db, step.run, step.execution, step.now, step.newId);
    } else {
      OtherHomes(db, step);
    }
  }

  lemma CreateNeedsNew(db: DB, step: Step)
    requires step.StCreateIssue? && Inserts(db, step)
    ensures step.issue !in db.homes
  {
  }

  /** An issue appears exactly by its creation, open and in the given workspace, and never moves to another. */
  lemma EveryNewIssue(dbs: seq<DB>, steps: seq<Step>, i: nat, issue: Id)
    requires IsHistory(dbs, steps) && i < |steps|
    ensures issue in dbs[i + 1].homes && issue !in dbs[i].homes
            <==> steps[i].StCreateIssue? && steps[i].issue == issue && Inserts(dbs[i], steps[i])
    ensures issue in dbs[i + 1].homes ==> dbs[i + 1].homes[issue] == if issue in dbs[i].homes then dbs[i].homes[issue] else steps[i].ws
    ensures issue in dbs[i + 1].homes && issue !in dbs[i].homes ==> issue in dbs[i + 1].issues && dbs[i + 1].issues[issue] == Open
  {
    hide Apply, Inv, Inserts;
    HistoryInv(dbs, steps, i);
    StepHomes(dbs[i], steps[i], issue);
  }

  ghost predicate SameSettings(db: DB, db': DB) {
    && db'.workspaces == db.workspaces && db'.agents == db.agents && db'.policies == db.policies
    && db'.webhooks == db.webhooks && db'.hookAttempts == db.hookAttempts
  }

  lemma EnqueueSettings(db: DB, step: Step)
    requires IsEnqueueStep(step)
    ensures SameSettings(db, ApplyEnqueue(db, step))
  {
    hide QueuedClash, AppendEvent;
  }

  lemma RetireSettings(db: DB, step: Step)
    requires IsRetireStep(step)
    ensures SameSettings(db, ApplyRetire(db, step))
  {
    hide RetireRows, RetireLogs, FanOut, AnyRun, UpdateIssue;
    if step.StUpdateIssue? {
      UpdateSettings(db, step.issue, step.status, step.now);
    }
  }

  lemma UpdateSettings(db: DB, issue: Id, status: IssueStatus, now: int)
    ensures SameSettings(db, Settle(db, UpdateIssue(db, issue, status, now)))
    ensures Settle(db, UpdateIssue(db, issue, status, now)).homes == db.homes
  {
    hide RetireRows, RetireLogs, FanOut, AnyRun;
  }

  lemma FinishDoneSettings(db: DB, run: Id, f: FinishInput, now: int, newId: Id)
    requires Has(db, run)
    ensures SameSettings(db, FinishDone(db, run, f, now, newId))
  {
    hide RetireRows, RetireLogs, FanOut, ChainTarget, AppendEvent, AutoCloses;
    var o := db.origins[run];
    var done := Retire(db, {run}, Done, EvCompleted, now);
    var chained := DispatchAutoChain(done, run, o, f, now, newId);
    assert SameSettings(db, chained);
    if ChainTarget(done, o, f, now).None? && AutoCloses(db, o.issue) {
    } else {
    }
  }

  lemma CompleteSettings(db: DB, run: Id, f: FinishInput, now: int, newId: Id)
    ensures SameSettings(db, Settle(db, CompleteRunWithReason(db, run, f, now, newId)))
  {
    hide RetireRows, RetireLogs, FanOut, AppendEvent, FinishDone;
    if Has(db, run) && db.runs[run].status == Running {
      var noted := if f.stdoutTruncated then WriteLog(db, run, EvStdoutTruncated) else db;
      FinishDoneSettings(noted, run, f, now, newId);
      if FinishStatus(f) == Done {
      } else {
      }
    }
  }

  lemma FinishSettings(db: DB, run: Id, x: Execution, now: int, newId: Id)
    ensures SameSettings(db, FinishRun(db, run, x, now, newId))
  {
    hide RetireRows, RetireLogs, AppendEvent, CompleteRunWithReason, QueuedClash, ValidPolicy, ShouldRetry, BackoffSeconds;
    CompleteSettings(if x.sanitized then Note(db, run, EvStdoutSanitized) else db, run, InputOf(x), now, newId);
  }

  lemma OtherSettings(db: DB, step: Step)
    requires step.StClaim? || step.StNote? || step.StHeartbeat? || step.StDeleteIssue?
    ensures SameSettings(db, Apply(db, step))
  {
    hide AppendEvent, NextRun, AnyRun;
  }

  lemma StepSettings(db: DB, step: Step)
    requires !IsSettingsStep(step)
    ensures SameSettings(db, Apply(db, step))
  {
    hide ApplyEnqueue, ApplyRetire, ApplySettings, ClaimNextRun, FinishRun, DeleteIssue, Note, Heartbeat, SameSettings;
    if IsEnqueueStep(step) {
      EnqueueSettings(db, step);
    } else if IsRetireStep(step) {
      RetireSettings(db, step);
    } else if step.StFinish? {
      FinishSettings(db, step.run, step.execution, step.now, step.newId);
    } else {
      OtherSettings(db, step);
    }
  }

  /** The workspaces after a step: only storing one changes them, and its limits are clamped to 1..20 and 0..1000. */
  ghost function WorkspacesAfter(db: DB, step: Step): map<Id, Workspace> {
    if !step.StPutWorkspace? then db.workspaces
    else
      var s := step.settings;
      var depth := if s.maxDepth <= 0 then 5 else if s.maxDepth > 20 then 20 else s.maxDepth;
      var runs := if s.dailyRunLimit < 0 then 0 else if s.dailyRunLimit > 1000 then 1000 else s.dailyRunLimit;
      db.workspaces[step.ws := s.(maxDepth := depth, dailyRunLimit := runs)]
  }

  lemma SettingsWorkspaces(db: DB, step: Step)
    requires IsSettingsStep(step)
    ensures ApplySettings(db, step).workspaces == WorkspacesAfter(db, step)
  {
    hide ValidPolicy, MarkDelivered, MarkFailure, Resubmit;
    match step
    case StPutWorkspace(_, _) =>
    case StAddAgent(_, _, _, _) =>
    case StSetPolicy(_, _) =>
    case StAddWebhook(_) =>
    case StSetWebhook(_, _, _) =>
    case StDelivered(d) => MarksSpareWorkspaces(db, d);
    case StDeliveryFailed(d) => MarksSpareWorkspaces(db, d);
    case StResubmit(d) => MarksSpareWorkspaces(db, d);
  }

  lemma MarksSpareWorkspaces(db: DB, d: nat)
    ensures Settle(db, MarkDelivered(db, d)).workspaces == db.workspaces && Settle(db, MarkFailure(db, d)).workspaces == db.workspaces
    ensures Settle(db, Resubmit(db, d)).workspaces == db.workspaces
  {
  }

  /** Agents, policies and webhooks change only by their own steps, and workspaces only by storing one, with clamped limits. */
  lemma EverySetting(dbs: seq<DB>, steps: seq<Step>, i: nat)
    requires IsHistory(dbs, steps) && i < |steps|
    ensures dbs[i + 1].workspaces == WorkspacesAfter(dbs[i], steps[i])
    ensures !IsSettingsStep(steps[i]) ==> dbs[i + 1].agents == dbs[i].agents && dbs[i + 1].policies == dbs[i].policies
                                          && dbs[i + 1].webhooks == dbs[i].webhooks && dbs[i + 1].hookAttempts == dbs[i].hookAttempts
  {
    hide ApplyEnqueue, ApplyRetire, ApplySettings, ClaimNextRun, FinishRun, DeleteIssue, Note, Heartbeat;
    if IsSettingsStep(steps[i]) {
      SettingsWorkspaces(dbs[i], steps[i]);
    } else {
      StepSettings(dbs[i], steps[i]);
    }
  }

  // ---------------------------------------------------------------- a retry rests as long as its policy says

  /** The step puts the running run back in the queue. */
  ghost predicate IsRequeued(dbs: seq<DB>, i: nat, id: Id)
    requires i + 1 < |dbs|
  {
    Has(dbs[i], id) && dbs[i].runs[id].status == Running && id in dbs[i + 1].runs && dbs[i + 1].runs[id].status == Queued
  }

  /** The wait that the policy of the run's agent gives for its current attempt. */
  function PolicyWait(db: DB, id: Id): int
    requires Has(db, id)
  {
    if db.origins[id].agent in db.policies then WaitAfter(db.policies[db.origins[id].agent], db.runs[id].attempt) else 0
  }

  lemma RequeueLogs(db: DB, id: Id, x: Execution, now: int, newId: Id)
    requires Inv(db) && Has(db, id) && db.runs[id].status == Running && FinishFate(db, id, x) == Queued
    ensures var log := LogOf(FinishRun(db, id, x, now, newId), id);
            |log| > 0 && log[|log| - 1].kind == EvRetryScheduled(DelayOf(db, id))
  {
    hide GraphOK, LivesOK, SettingsOK, QueuedClash, ShouldRetry, BackoffSeconds, FinishDone, CompleteRunWithReason, ValidPolicy, MaxSeq;
    AgentHasPolicy(db, id);
    CleanIsDone(x);
  }

  /**
   A retry: only the run's own finish puts it back in the queue. It is due exactly the policy's wait after that step, for the
   attempt that failed, and the last row of its log records the same wait.
   */
  lemma RetryIsDueAsScheduled(dbs: seq<DB>, steps: seq<Step>, i: nat, id: Id)
    requires IsHistory(dbs, steps) && i < |steps| && IsRequeued(dbs, i, id)
    ensures steps[i].StFinish? && steps[i].run == id && dbs[i].origins[id].agent in dbs[i].policies
    ensures dbs[i + 1].runs[id].nextRetryAt == Some(steps[i].now + PolicyWait(dbs[i], id))
    ensures var log := LogOf(dbs[i + 1], id);
            |log| > 0 && log[|log| - 1].kind == EvRetryScheduled(PolicyWait(dbs[i], id))
  {
    hide Inv, Granted, NoneWaiting, NoneRunning, NoneActive, ComesFirst, WaitAfter, FinishFate, FinishRun, Goes;
    hide ApplyEnqueue, ApplyRetire, ApplySettings, ClaimNextRun, DeleteIssue, Note, Heartbeat, BackoffSeconds;
    var db, step := dbs[i], steps[i];
    EveryRow(dbs, steps, i, id);
    HistoryInv(dbs, steps, i);
    AgentHasPolicy(db, id);
    FinishStatusIs(db, id, step.execution);
    RequeueLogs(db, id, step.execution, step.now, step.newId);
    RowAt(db, id);
    RowBounds(db.origins[id].maxAttempts, db.runs[id], db.events[id]);
    WaitIs(db.policies[db.origins[id].agent], db.runs[id].attempt);
  }

  /** A later attempt has begun, or while the run is queued it is still due at `due`. */
  ghost predicate Rests(db: DB, id: Id, attempt: int, due: int) {
    id in db.issued && (id in db.runs ==>
                          || db.runs[id].attempt > attempt
                          || (db.runs[id].attempt == attempt && (db.runs[id].status == Queued ==> db.runs[id].nextRetryAt == Some(due))))
  }

  lemma RestsOn(db: DB, db': DB, id: Id, attempt: int, due: int)
    requires Evolves(db, db') && Rests(db, id, attempt, due)
    ensures Rests(db', id, attempt, due)
  {
    if id in db'.runs && id in db.runs {
      assert Moves(db.runs[id], db'.runs[id]);
    }
  }

  lemma {:induction false} RestsThroughout(dbs: seq<DB>, steps: seq<Step>, i: nat, j: nat, id: Id, attempt: int, due: int)
    requires IsHistory(dbs, steps) && i <= j < |dbs| && Rests(dbs[i], id, attempt, due)
    ensures Rests(dbs[j], id, attempt, due)
    decreases j
  {
    hide Apply, Evolves, Inv, Rests;
    if i < j {
      RestsThroughout(dbs, steps, i, j - 1, id, attempt, due);
      HistoryEvolves(dbs, steps, j - 1);
      RestsOn(dbs[j - 1], dbs[j], id, attempt, due);
    }
  }

  lemma RetryRests(dbs: seq<DB>, steps: seq<Step>, i: nat, id: Id)
    requires IsHistory(dbs, steps) && i < |steps| && IsRequeued(dbs, i, id)
    ensures steps[i].StFinish? && Rests(dbs[i + 1], id, dbs[i + 1].runs[id].attempt, steps[i].now + PolicyWait(dbs[i], id))
  {
    hide Apply, GraphOK, LivesOK, SettingsOK, PolicyWait;
    RetryIsDueAsScheduled(dbs, steps, i, id);
    HistoryInv(dbs, steps, i + 1);
  }

  /** No claim takes the retried attempt before the policy's wait is over. */
  lemma NoClaimBeforeDue(dbs: seq<DB>, steps: seq<Step>, i: nat, j: nat, id: Id)
    requires IsHistory(dbs, steps) && i < j < |steps| && IsRequeued(dbs, i, id)
    requires steps[j].StClaim? && Has(dbs[j], id) && dbs[j].runs[id].status == Queued
    requires dbs[j].runs[id].attempt == dbs[i + 1].runs[id].attempt
    requires id in dbs[j + 1].runs && dbs[j + 1].runs[id].status == Running
    ensures steps[i].StFinish? && steps[j].now >= steps[i].now + PolicyWait(dbs[i], id)
  {
    hide Apply, Inv, PolicyWait, Goes, ComesFirst;
    RetryRests(dbs, steps, i, id);
    RestsThroughout(dbs, steps, i + 1, j, id, dbs[i + 1].runs[id].attempt, steps[i].now + PolicyWait(dbs[i], id));
    EveryRow(dbs, steps, j, id);
    FirstIsReady(dbs[j], steps[j].now, id);
  }

  lemma FirstIsReady(db: DB, now: int, id: Id)
    ensures ComesFirst(db, now, id) ==> id in db.runs && MayStartAt(db.runs[id], now)
  {
  }
}
