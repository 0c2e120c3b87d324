/**
 The durable run queue: its tables, the row-level updates its transactions are made of,
 and each store transaction as a function from database to database.

 Time is an integer clock read once per transaction. Run ids are fresh: `issued` remembers
 every id ever handed out, including those of deleted rows. `stamp` numbers insertions.
 */
module RunQueue {
  import opened Common
  import opened RetryPolicies

  type Id = nat

  const DAY_SECONDS := 86400

  datatype Status = Queued | Running | Done | Failed | Cancelled

  predicate IsActive(s: Status) { s == Queued || s == Running }

  datatype Trigger = IssueCreated | Mention | Autopilot | Rerun

  /** `EvRetryScheduled` is the `run_failed` row whose details carry `retry_scheduled`. */
  datatype EventKind =
    | EvQueued
    | EvClaimed
    | EvPrepareFailed
    | EvStarting
    | EvStdoutTruncated
    | EvCancelRequested
    | EvCancelled
    | EvCompleted
    | EvFailed
    | EvRetryScheduled(delay: int)
    | EvOrphan
    | EvStale
    | EvSkillsLoaded
    | EvStdoutSanitized

  datatype Event = Event(seqNo: int, kind: EventKind)

  /** Columns of a run row that are fixed when it is inserted. */
  datatype Origin = Origin(
    issue: Id,
    agent: Id,
    trigger: Trigger,
    parent: Option<Id>,
    chain: Id,
    depth: nat,
    enqueuedAt: int,
    maxAttempts: int,
    born: nat)

  /** Columns of a run row that later transactions change. */
  datatype Life = Life(
    status: Status,
    claimedAt: Option<int>,
    heartbeatAt: Option<int>,
    finishedAt: Option<int>,
    attempt: int,
    nextRetryAt: Option<int>)

  datatype IssueStatus = Open | IssueDone | IssueCancelled

  datatype Workspace = Workspace(
    perRunWorktree: bool,
    autoChain: bool,
    maxDepth: int,
    dailyRunLimit: int,
    dryRun: bool,
    autoClose: bool)

  datatype Agent = Agent(workspace: Id, isMain: bool)

  datatype HookEvent = HookRunCompleted | HookRunFailed | HookIssueDone | HookIssueCancelled
  datatype Webhook = Webhook(workspace: Id, events: seq<HookEvent>, enabled: bool)
  datatype DeliveryStatus = Pending | Delivered | DeadLetter
  datatype Delivery = Delivery(hook: nat, event: HookEvent, status: DeliveryStatus, attempt: nat)

  /**
   The tables. A run row is split in `origins` and `runs`, an issue row in `homes` (its workspace)
   and `issues` (its status), an agent row in `agents` and `policies`. Webhooks and their deliveries
   are numbered by insertion order.
   */
  datatype DB = DB(
    workspaces: map<Id, Workspace>,
    agents: map<Id, Agent>,
    policies: map<Id, RetryPolicy>,
    homes: map<Id, Id>,
    issues: map<Id, IssueStatus>,
    origins: map<Id, Origin>,
    runs: map<Id, Life>,
    events: map<Id, seq<Event>>,
    webhooks: seq<Webhook>,
    deliveries: seq<Delivery>,
    hookAttempts: nat,
    issued: set<Id>,
    stamp: nat)

  function EmptyDB(hookAttempts: nat): DB {
    DB(map[], map[], map[], map[], map[], map[], map[], map[], [], [], hookAttempts, {}, 0)
  }

  // ---------------------------------------------------------------- event log

  function MaxSeq(es: seq<Event>): int {
    if es == [] then 0
    else
      var m := MaxSeq(es[..|es| - 1]);
      var last := es[|es| - 1].seqNo;
      if last > m then last else m
  }

  /** Appends a row numbered one past the largest number of its run. */
  function AppendEvent(es: seq<Event>, kind: EventKind): seq<Event> {
    es + [Event(MaxSeq(es) + 1, kind)]
  }

  function LogOf(db: DB, id: Id): seq<Event> {
    if id in db.events then db.events[id] else []
  }

  // ---------------------------------------------------------------- row-level updates

  predicate Has(db: DB, id: Id) { id in db.runs && id in db.origins }

  function WriteLog(db: DB, id: Id, kind: EventKind): DB {
    db.(events := db.events[id := AppendEvent(LogOf(db, id), kind)])
  }

  function SetRun(db: DB, id: Id, life: Life, kind: EventKind): DB {
    WriteLog(db.(runs := db.runs[id := life]), id, kind)
  }

  function Retired(r: Life, status: Status, now: int): Life {
    r.(status := status, finishedAt := Some(now))
  }

  predicate Hits(runs: map<Id, Life>, ids: set<Id>, id: Id) {
    id in runs && id in ids && IsActive(runs[id].status)
  }

  function RetireRows(runs: map<Id, Life>, ids: set<Id>, status: Status, now: int): map<Id, Life> {
    map id | id in runs :: if Hits(runs, ids, id) then Retired(runs[id], status, now) else runs[id]
  }

  function RetireLogs(runs: map<Id, Life>, events: map<Id, seq<Event>>, ids: set<Id>, kind: EventKind): map<Id, seq<Event>> {
    map id | id in events :: if Hits(runs, ids, id) then AppendEvent(events[id], kind) else events[id]
  }

  /** Moves every still active run of `ids` to a final status and logs `kind` for it. */
  function Retire(db: DB, ids: set<Id>, status: Status, kind: EventKind, now: int): DB {
    db.(runs := RetireRows(db.runs, ids, status, now), events := RetireLogs(db.runs, db.events, ids, kind))
  }

  function NewLife(): Life { Life(Queued, None, None, None, 1, None) }

  /** Inserts a queued row under a fresh id. */
  function Enqueue(db: DB, id: Id, o: Origin, logged: bool): DB {
    db.(origins := db.origins[id := o.(born := db.stamp)],
        runs := db.runs[id := NewLife()],
        events := db.events[id := if logged then AppendEvent([], EvQueued) else []],
        issued := db.issued + {id},
        stamp := db.stamp + 1)
  }

  function SetIssue(db: DB, i: Id, status: IssueStatus): DB {
    db.(issues := db.issues[i := status])
  }

  // ---------------------------------------------------------------- queries

  /** Some run of `issue` has one of the given statuses. */
  predicate AnyRun(origins: map<Id, Origin>, runs: map<Id, Life>, issue: Id, statuses: set<Status>) {
    exists id :: id in origins && id in runs && origins[id].issue == issue && runs[id].status in statuses
  }

  predicate HasActive(db: DB, issue: Id) { AnyRun(db.origins, db.runs, issue, {Queued, Running}) }

  predicate HasRunning(db: DB, issue: Id) { AnyRun(db.origins, db.runs, issue, {Running}) }

  /** The partial unique index over queued rows. */
  predicate QueuedClash(origins: map<Id, Origin>, runs: map<Id, Life>, issue: Id, agent: Id) {
    exists id :: id in origins && id in runs && runs[id].status == Queued && origins[id].issue == issue && origins[id].agent == agent
  }

  predicate InWorkspace(origins: map<Id, Origin>, homes: map<Id, Id>, id: Id, ws: Id) {
    id in origins && origins[id].issue in homes && homes[origins[id].issue] == ws
  }

  predicate WorkspaceBusy(db: DB, ws: Id) {
    exists id :: id in db.runs && InWorkspace(db.origins, db.homes, id, ws) && db.runs[id].status == Running
  }

  predicate Due(r: Life, now: int) { r.nextRetryAt.None? || r.nextRetryAt.value <= now }

  /** The WHERE clause of the claim query. */
  predicate Eligible(db: DB, now: int, id: Id) {
    && Has(db, id)
    && db.runs[id].status == Queued
    && Due(db.runs[id], now)
    && db.origins[id].issue in db.homes
    && !HasRunning(db, db.origins[id].issue)
    && (var ws := db.homes[db.origins[id].issue];
        ws in db.workspaces && (db.workspaces[ws].perRunWorktree || !WorkspaceBusy(db, ws)))
  }

  /** The ORDER BY of the claim query. */
  predicate Before(o: Origin, id: Id, o': Origin, id': Id) {
    o.enqueuedAt < o'.enqueuedAt || (o.enqueuedAt == o'.enqueuedAt && id < id')
  }

  ghost predicate IsNext(db: DB, now: int, id: Id) {
    && Eligible(db, now, id)
    && forall other :: other != id && Eligible(db, now, other) ==> Before(db.origins[id], id, db.origins[other], other)
  }

  ghost function NextRun(db: DB, now: int): Option<Id> {
    if exists id :: IsNext(db, now, id) then
      var id :| IsNext(db, now, id);
      Some(id)
    else None
  }

  // ---------------------------------------------------------------- webhooks

  predicate Receives(h: Webhook, ws: Id, event: HookEvent) {
    h.workspace == ws && h.enabled && (h.events == [] || event in h.events)
  }

  /** One pending delivery for each of the first `n` webhooks that receives the event. */
  function FanOut(hooks: seq<Webhook>, n: nat, ws: Id, event: HookEvent): seq<Delivery>
    requires n <= |hooks|
  {
    if n == 0 then []
    else FanOut(hooks, n - 1, ws, event)
         + if Receives(hooks[n - 1], ws, event) then [Delivery(n - 1, event, Pending, 0)] else []
  }

  function Notify(db: DB, issue: Id, event: HookEvent): DB {
    if issue in db.homes
    then db.(deliveries := db.deliveries + FanOut(db.webhooks, |db.webhooks|, db.homes[issue], event))
    else db
  }

  // ---------------------------------------------------------------- claim, retry, cancel, fail

  function Started(r: Life, now: int): Life {
    r.(status := Running, claimedAt := Some(now), heartbeatAt := Some(now))
  }

  ghost function ClaimNextRun(db: DB, now: int): DB {
    var next := NextRun(db, now);
    if next.Some? && next.value in db.runs
    then SetRun(db, next.value, Started(db.runs[next.value], now), EvClaimed)
    else db
  }

  function Requeued(r: Life, now: int, delay: int): Life {
    Life(Queued, None, None, r.finishedAt, r.attempt + 1, Some(now + delay))
  }

  /** Puts a running run back in the queue; the queued-row index can refuse it. */
  function RescheduleRunForRetry(db: DB, id: Id, kind: FailureKind, now: int): Result<DB> {
    if !Has(db, id) || db.origins[id].agent !in db.policies then Err(NotFound)
    else
      var o, r := db.origins[id], db.runs[id];
      var policy := db.policies[o.agent];
      if !ValidPolicy(policy) then Err(Validation)
      else if r.status != Running || !ShouldRetry(kind, r.attempt, o.maxAttempts, policy) then Err(StateError)
      else if QueuedClash(db.origins, db.runs, o.issue, o.agent) then Err(Conflict)
      else
        var delay := BackoffSeconds(r.attempt, policy);
        Ok(SetRun(db, id, Requeued(r, now, delay), EvRetryScheduled(delay)))
  }

  function CancelRunWithReason(db: DB, id: Id, now: int): Result<DB> {
    if !Has(db, id) then Err(NotFound)
    else if !IsActive(db.runs[id].status) then Err(StateError)
    else Ok(Retire(db, {id}, Cancelled, EvCancelled, now))
  }

  function ChainMembers(db: DB, chain: Id): set<Id> {
    set id | id in db.origins && db.origins[id].chain == chain
  }

  function CancelRunsByChain(db: DB, chain: Id, now: int): DB {
    Retire(db, ChainMembers(db, chain), Cancelled, EvCancelled, now)
  }

  function RunningOf(db: DB, ids: set<Id>): set<Id> {
    set id | id in ids && id in db.runs && db.runs[id].status == Running
  }

  /** `ids` was selected by an earlier statement, so nothing is known about those runs now. */
  function RecoverStaleRuns(db: DB, ids: set<Id>, now: int): DB {
    Retire(db, RunningOf(db, ids), Cancelled, EvStale, now)
  }

  /** Start-up recovery, before any worker runs. */
  function RecoverOrphanRuns(db: DB, now: int): DB {
    Retire(db, RunningOf(db, db.runs.Keys), Cancelled, EvOrphan, now)
  }

  function FailInfrastructureRun(db: DB, id: Id, preparing: bool, now: int): Result<DB> {
    if !Has(db, id) then Err(NotFound)
    else if !IsActive(db.runs[id].status) then Ok(db)
    else
      Ok(Notify(Retire(db, {id}, Failed, if preparing then EvPrepareFailed else EvFailed, now),
                db.origins[id].issue, HookRunFailed))
  }

  // ---------------------------------------------------------------- completion and auto-chaining

  datatype TerminalReason =
    | ReasonUnset
    | ReasonCompleted
    | ReasonExitNonzero
    | ReasonTimeout
    | ReasonExecutorError
    | ReasonUnknown

  /** `mention` is the agent the finished run's comment names; `overBudget` is the answer of the daily cost query. */
  datatype FinishInput = FinishInput(
    exitCode: int,
    reason: TerminalReason,
    stdoutTruncated: bool,
    mention: Option<Id>,
    overBudget: bool)

  function FinishStatus(f: FinishInput): Status {
    if f.exitCode == 0 && (f.reason == ReasonUnset || f.reason == ReasonCompleted) then Done else Failed
  }

  function NormalizeMaxDepth(value: int): (d: int)
    ensures 1 <= d <= 20
    ensures 1 <= value <= 20 ==> d == value
    ensures value > 20 ==> d == 20
    ensures value <= 0 ==> d == 5
  {
    if value <= 0 then 5 else if value > 20 then 20 else value
  }

  function NormalizeDailyRunLimit(value: int): (l: int)
    ensures 0 <= l <= 1000
    ensures 0 <= value <= 1000 ==> l == value
    ensures value > 1000 ==> l == 1000
    ensures value < 0 ==> l == 0
  {
    if value <= 0 then 0 else if value > 1000 then 1000 else value
  }

  /** Rows the daily run guard counts: every run of positive depth enqueued at `since` or later. */
  function RecentChainRuns(origins: map<Id, Origin>, homes: map<Id, Id>, ws: Id, since: int): set<Id> {
    set id | id in origins && InWorkspace(origins, homes, id, ws) && origins[id].depth > 0 && origins[id].enqueuedAt >= since
  }

  predicate SeenInChain(origins: map<Id, Origin>, issue: Id, agent: Id, chain: Id) {
    exists id :: id in origins && origins[id].issue == issue && origins[id].agent == agent
                 && (origins[id].chain == chain || id == chain)
  }

  /** The guards of an auto-chain dispatch from a finished run, in the order the store asks them. */
  function ChainTarget(db: DB, o: Origin, f: FinishInput, now: int): Option<Id> {
    if f.mention.None? || o.issue !in db.homes || db.homes[o.issue] !in db.workspaces then None
    else
      var wid := db.homes[o.issue];
      var ws := db.workspaces[wid];
      var a := f.mention.value;
      if !ws.autoChain then None
      else if a !in db.agents || a !in db.policies || db.agents[a].workspace != wid then None
      else if !db.agents[a].isMain && o.depth >= NormalizeMaxDepth(ws.maxDepth) then None
      else if ws.dryRun then None
      else if ws.dailyRunLimit > 0 && |RecentChainRuns(db.origins, db.homes, wid, now - DAY_SECONDS)| >= ws.dailyRunLimit then None
      else if f.overBudget then None
      else if QueuedClash(db.origins, db.runs, o.issue, a) then None
      else if !db.agents[a].isMain && SeenInChain(db.origins, o.issue, a, o.chain) then None
      else Some(a)
  }

  function ChildOrigin(id: Id, o: Origin, a: Id, isMain: bool, now: int, maxAttempts: int): Origin {
    Origin(o.issue, a, Mention, Some(id), o.chain, if isMain then o.depth else o.depth + 1, now, maxAttempts, 0)
  }

  /** Enqueues the mentioned agent when every guard lets it through. */
  function DispatchAutoChain(db: DB, id: Id, o: Origin, f: FinishInput, now: int, newId: Id): DB {
    var target := ChainTarget(db, o, f, now);
    if target.Some? && target.value in db.agents && target.value in db.policies then
      var a := target.value;
      Enqueue(db, newId, ChildOrigin(id, o, a, db.agents[a].isMain, now, db.policies[a].maxAttempts), true)
    else db
  }

  predicate AutoCloses(db: DB, issue: Id) {
    && issue in db.homes
    && db.homes[issue] in db.workspaces
    && db.workspaces[db.homes[issue]].autoClose
  }

  function CloseIssue(db: DB, issue: Id): DB {
    Notify(Notify(SetIssue(db, issue, IssueDone), issue, HookRunCompleted), issue, HookIssueDone)
  }

  function FinishDone(db: DB, id: Id, f: FinishInput, now: int, newId: Id): DB
    requires Has(db, id)
  {
    var o := db.origins[id];
    var done := Retire(db, {id}, Done, EvCompleted, now);
    var chained := DispatchAutoChain(done, id, o, f, now, newId);
    if ChainTarget(done, o, f, now).None? && AutoCloses(db, o.issue)
    then CloseIssue(chained, o.issue)
    else Notify(chained, o.issue, HookRunCompleted)
  }

  /** Only a running run is completed; any other run is left alone. */
  function CompleteRunWithReason(db: DB, id: Id, f: FinishInput, now: int, newId: Id): Result<DB> {
    if !Has(db, id) then Err(NotFound)
    else if db.runs[id].status != Running then Ok(db)
    else
      var noted := if f.stdoutTruncated then WriteLog(db, id, EvStdoutTruncated) else db;
      if FinishStatus(f) == Done then Ok(FinishDone(noted, id, f, now, newId))
      else Ok(Notify(Retire(noted, {id}, Failed, EvFailed, now), db.origins[id].issue, HookRunFailed))
  }

  // ---------------------------------------------------------------- worker-side finish

  datatype Execution = Execution(
    cancelled: bool,
    timedOut: bool,
    failed: bool,
    processStarted: bool,
    exitCode: int,
    sanitized: bool,
    stdoutTruncated: bool,
    mention: Option<Id>,
    overBudget: bool)

  function EffectiveExit(x: Execution): int { if x.failed && x.exitCode == 0 then 1 else x.exitCode }

  function ReasonOf(x: Execution): TerminalReason {
    if x.timedOut then ReasonTimeout
    else if x.failed && !x.processStarted then ReasonExecutorError
    else if EffectiveExit(x) != 0 then ReasonExitNonzero
    else if x.failed then ReasonExecutorError
    else ReasonCompleted
  }

  function KindOf(reason: TerminalReason): FailureKind {
    match reason
    case ReasonTimeout => TimeoutKind
    case ReasonExecutorError => ExecutorErrorKind
    case ReasonExitNonzero => ExitNonzeroKind
    case ReasonUnknown => UnknownKind
    case _ => NoFailure
  }

  function InputOf(x: Execution): FinishInput {
    FinishInput(EffectiveExit(x), ReasonOf(x), x.stdoutTruncated, x.mention, x.overBudget)
  }

  predicate WantsRetry(x: Execution) { EffectiveExit(x) != 0 || ReasonOf(x) != ReasonCompleted }

  function Settle(db: DB, r: Result<DB>): DB { if r.Ok? then r.value else db }

  /** The part of a finish after the log note: a refused retry that is not a state error ends the call. */
  function RetryOrComplete(db: DB, id: Id, x: Execution, now: int, newId: Id): DB {
    var retry := RescheduleRunForRetry(db, id, KindOf(ReasonOf(x)), now);
    if WantsRetry(x) && retry.Ok? then retry.value
    else if WantsRetry(x) && retry.error != StateError then db
    else Settle(db, CompleteRunWithReason(db, id, InputOf(x), now, newId))
  }

  /** What the worker writes after an execution: retry, complete or cancel. */
  function FinishRun(db: DB, id: Id, x: Execution, now: int, newId: Id): DB {
    if x.cancelled then Settle(db, CancelRunWithReason(db, id, now))
    else RetryOrComplete(if x.sanitized then Note(db, id, EvStdoutSanitized) else db, id, x, now, newId)
  }

  // ---------------------------------------------------------------- enqueueing

  function RootOrigin(issue: Id, agent: Id, trigger: Trigger, id: Id, now: int, maxAttempts: int): Origin {
    Origin(issue, agent, trigger, None, id, 0, now, maxAttempts, 0)
  }

  predicate AgentAt(db: DB, agent: Id, ws: Id) {
    agent in db.agents && agent in db.policies && db.agents[agent].workspace == ws
  }

  /** Issue creation by a user (`logged`) or by an autopilot rule, which writes no queue event. */
  function CreateIssueWithInitialRun(db: DB, issue: Id, ws: Id, agent: Id, logged: bool, now: int, newId: Id): Result<DB> {
    if ws !in db.workspaces || !AgentAt(db, agent, ws) then Err(NotFound)
    else if issue in db.homes then Err(Conflict)
    else
      var created := db.(homes := db.homes[issue := ws], issues := db.issues[issue := Open]);
      var trigger := if logged then IssueCreated else Autopilot;
      Ok(Enqueue(created, newId, RootOrigin(issue, agent, trigger, newId, now, db.policies[agent].maxAttempts), logged))
  }

  /** A user comment that mentions `agent`. */
  function AddUserComment(db: DB, issue: Id, agent: Id, now: int, newId: Id): Result<DB> {
    if issue !in db.homes then Err(NotFound)
    else if !AgentAt(db, agent, db.homes[issue]) || QueuedClash(db.origins, db.runs, issue, agent) then Ok(db)
    else
      Ok(Enqueue(SetIssue(db, issue, Open), newId,
                 RootOrigin(issue, agent, Mention, newId, now, db.policies[agent].maxAttempts), true))
  }

  /** The transaction of a rerun; the idle check in front of it is a separate statement. */
  function RerunIssue(db: DB, issue: Id, agent: Id, now: int, newId: Id): Result<DB> {
    if issue !in db.homes || !AgentAt(db, agent, db.homes[issue]) then Err(NotFound)
    else if QueuedClash(db.origins, db.runs, issue, agent) then Err(Conflict)
    else
      Ok(Enqueue(SetIssue(db, issue, Open), newId,
                 RootOrigin(issue, agent, Rerun, newId, now, db.policies[agent].maxAttempts), true))
  }

  function RetryOrigin(last: Id, o: Origin, now: int, maxAttempts: int): Origin {
    Origin(o.issue, o.agent, Rerun, Some(last), o.chain, o.depth, now, maxAttempts, 0)
  }

  /** The transaction of a chain retry of the failed run `last`, which an earlier statement selected. */
  function RetryFailedRunInChain(db: DB, last: Id, now: int, newId: Id): Result<DB> {
    if !Has(db, last) || db.runs[last].status != Failed then Err(NotFound)
    else
      var o := db.origins[last];
      if o.issue !in db.homes || o.agent !in db.policies then Err(NotFound)
      else if QueuedClash(db.origins, db.runs, o.issue, o.agent) then Err(Conflict)
      else
        Ok(Enqueue(SetIssue(db, o.issue, Open), newId, RetryOrigin(last, o, now, db.policies[o.agent].maxAttempts), true))
  }

  // ---------------------------------------------------------------- issues

  function RunsOf(db: DB, issue: Id): set<Id> {
    set id | id in db.origins && db.origins[id].issue == issue
  }

  function CancelIssue(db: DB, issue: Id, now: int): DB {
    Notify(SetIssue(Retire(db, RunsOf(db, issue), Cancelled, EvCancelled, now), issue, IssueCancelled), issue, HookIssueCancelled)
  }

  function UpdateIssue(db: DB, issue: Id, status: IssueStatus, now: int): Result<DB> {
    if issue !in db.homes then Err(NotFound)
    else if status == IssueDone && HasActive(db, issue) then Err(StateError)
    else if status == IssueCancelled && HasRunning(db, issue) then Err(StateError)
    else if status == IssueCancelled then Ok(CancelIssue(db, issue, now))
    else Ok(SetIssue(db, issue, status))
  }

  /** Deleting an issue deletes its runs and their events. */
  function DeleteIssue(db: DB, issue: Id): Result<DB> {
    if HasActive(db, issue) then Err(StateError)
    else if issue !in db.homes then Err(NotFound)
    else
      var gone := RunsOf(db, issue);
      Ok(db.(homes := db.homes - {issue}, issues := db.issues - {issue},
             origins := db.origins - gone, runs := db.runs - gone, events := db.events - gone))
  }

  // ---------------------------------------------------------------- deliveries

  function SetDelivery(db: DB, d: nat, status: DeliveryStatus, attempt: nat): DB
    requires d < |db.deliveries|
  {
    db.(deliveries := db.deliveries[d := db.deliveries[d].(status := status, attempt := attempt)])
  }

  function MarkDelivered(db: DB, d: nat): Result<DB> {
    if d >= |db.deliveries| || db.deliveries[d].status != Pending then Err(StateError)
    else Ok(SetDelivery(db, d, Delivered, db.deliveries[d].attempt + 1))
  }

  function MarkFailure(db: DB, d: nat): Result<DB> {
    if d >= |db.deliveries| then Err(NotFound)
    else if db.deliveries[d].status != Pending then Ok(db)
    else
      var next := db.deliveries[d].attempt + 1;
      Ok(SetDelivery(db, d, if next >= db.hookAttempts then DeadLetter else Pending, next))
  }

  function Resubmit(db: DB, d: nat): Result<DB> {
    if d >= |db.deliveries| then Err(NotFound)
    else if db.deliveries[d].status != DeadLetter then Err(StateError)
    else Ok(SetDelivery(db, d, Pending, 0))
  }

  // ---------------------------------------------------------------- notes and settings

  /** Log rows that any caller may append; they never mark the end of a run. */
  predicate IsNote(kind: EventKind) {
    kind in {EvStarting, EvCancelRequested, EvSkillsLoaded, EvStdoutSanitized, EvStdoutTruncated}
  }

  function Note(db: DB, id: Id, kind: EventKind): DB {
    if Has(db, id) && IsNote(kind) then WriteLog(db, id, kind) else db
  }

  function Heartbeat(db: DB, id: Id, now: int): DB {
    if id in db.runs && db.runs[id].status == Running
    then db.(runs := db.runs[id := db.runs[id].(heartbeatAt := Some(now))])
    else db
  }

  function SettingsOf(s: Workspace): Workspace {
    s.(maxDepth := NormalizeMaxDepth(s.maxDepth), dailyRunLimit := NormalizeDailyRunLimit(s.dailyRunLimit))
  }

  function PutWorkspace(db: DB, ws: Id, settings: Workspace): DB {
    db.(workspaces := db.workspaces[ws := SettingsOf(settings)])
  }

  function AddAgent(db: DB, agent: Id, ws: Id, isMain: bool, policy: RetryPolicy): DB {
    if agent !in db.agents && ws in db.workspaces && ValidPolicy(policy)
    then db.(agents := db.agents[agent := Agent(ws, isMain)], policies := db.policies[agent := policy])
    else db
  }

  function SetPolicy(db: DB, agent: Id, policy: RetryPolicy): DB {
    if agent in db.policies && ValidPolicy(policy) then db.(policies := db.policies[agent := policy]) else db
  }

  function SetWebhook(db: DB, index: nat, events: seq<HookEvent>, enabled: bool): DB {
    if index < |db.webhooks|
    then db.(webhooks := db.webhooks[index := db.webhooks[index].(events := events, enabled := enabled)])
    else db
  }

  // ---------------------------------------------------------------- the machine

  datatype Step =
    | StClaim(now: int)
    | StFinish(run: Id, execution: Execution, now: int, newId: Id)
    | StFailInfrastructure(run: Id, preparing: bool, now: int)
    | StCancel(run: Id, now: int)
    | StCancelChain(chain: Id, now: int)
    | StRecoverStale(ids: set<Id>, now: int)
    | StRecoverOrphans(now: int)
    | StNote(run: Id, kind: EventKind)
    | StHeartbeat(run: Id, now: int)
    | StCreateIssue(issue: Id, ws: Id, agent: Id, logged: bool, now: int, newId: Id)
    | StComment(issue: Id, agent: Id, now: int, newId: Id)
    | StRerun(issue: Id, agent: Id, now: int, newId: Id)
    | StRetryChain(last: Id, now: int, newId: Id)
    | StUpdateIssue(issue: Id, status: IssueStatus, now: int)
    | StDeleteIssue(issue: Id)
    | StPutWorkspace(ws: Id, settings: Workspace)
    | StAddAgent(agent: Id, ws: Id, isMain: bool, policy: RetryPolicy)
    | StSetPolicy(agent: Id, policy: RetryPolicy)
    | StAddWebhook(hook: Webhook)
    | StSetWebhook(index: nat, events: seq<HookEvent>, enabled: bool)
    | StDelivered(delivery: nat)
    | StDeliveryFailed(delivery: nat)
    | StResubmit(delivery: nat)

  predicate IsEnqueueStep(step: Step) {
    step.StCreateIssue? || step.StComment? || step.StRerun? || step.StRetryChain?
  }

  predicate IsRetireStep(step: Step) {
    step.StFailInfrastructure? || step.StCancel? || step.StCancelChain? || step.StRecoverStale? || step.StRecoverOrphans?
    || step.StUpdateIssue?
  }

  predicate IsSettingsStep(step: Step) {
    step.StPutWorkspace? || step.StAddAgent? || step.StSetPolicy? || step.StAddWebhook? || step.StSetWebhook?
    || step.StDelivered? || step.StDeliveryFailed? || step.StResubmit?
  }

  function ApplyEnqueue(db: DB, step: Step): DB
    requires IsEnqueueStep(step)
  {
    match step
    case StCreateIssue(issue, ws, agent, logged, now, newId) =>
      Settle(db, CreateIssueWithInitialRun(db, issue, ws, agent, logged, now, newId))
    case StComment(issue, agent, now, newId) => Settle(db, AddUserComment(db, issue, agent, now, newId))
    case StRerun(issue, agent, now, newId) => Settle(db, RerunIssue(db, issue, agent, now, newId))
    case StRetryChain(last, now, newId) => Settle(db, RetryFailedRunInChain(db, last, now, newId))
  }

  function ApplyRetire(db: DB, step: Step): DB
    requires IsRetireStep(step)
  {
    match step
    case StFailInfrastructure(run, preparing, now) => Settle(db, FailInfrastructureRun(db, run, preparing, now))
    case StCancel(run, now) => Settle(db, CancelRunWithReason(db, run, now))
    case StCancelChain(chain, now) => CancelRunsByChain(db, chain, now)
    case StRecoverStale(ids, now) => RecoverStaleRuns(db, ids, now)
    case StRecoverOrphans(now) => RecoverOrphanRuns(db, now)
    case StUpdateIssue(issue, status, now) => Settle(db, UpdateIssue(db, issue, status, now))
  }

  function ApplySettings(db: DB, step: Step): DB
    requires IsSettingsStep(step)
  {
    match step
    case StPutWorkspace(ws, settings) => PutWorkspace(db, ws, settings)
    case StAddAgent(agent, ws, isMain, policy) => AddAgent(db, agent, ws, isMain, policy)
    case StSetPolicy(agent, policy) => SetPolicy(db, agent, policy)
    case StAddWebhook(hook) => db.(webhooks := db.webhooks + [hook])
    case StSetWebhook(index, events, enabled) => SetWebhook(db, index, events, enabled)
    case StDelivered(delivery) => Settle(db, MarkDelivered(db, delivery))
    case StDeliveryFailed(delivery) => Settle(db, MarkFailure(db, delivery))
    case StResubmit(delivery) => Settle(db, Resubmit(db, delivery))
  }

  /** One committed transaction; a refused one changes nothing. */
  ghost function Apply(db: DB, step: Step): DB {
    if IsEnqueueStep(step) then ApplyEnqueue(db, step)
    else if IsRetireStep(step) then ApplyRetire(db, step)
    else if IsSettingsStep(step) then ApplySettings(db, step)
    else
      match step
      case StClaim(now) => ClaimNextRun(db, now)
      case StFinish(run, x, now, newId) => FinishRun(db, run, x, now, newId)
      case StNote(run, kind) => Note(db, run, kind)
      case StHeartbeat(run, now) => Heartbeat(db, run, now)
      case StDeleteIssue(issue) => Settle(db, DeleteIssue(db, issue))
  }

  /** Ids minted by a step have never been handed out before. */
  predicate Fresh(db: DB, step: Step) {
    match step
    case StFinish(_, _, _, newId) => newId !in db.issued
    case StCreateIssue(_, _, _, _, _, newId) => newId !in db.issued
    case StComment(_, _, _, newId) => newId !in db.issued
    case StRerun(_, _, _, newId) => newId !in db.issued
    case StRetryChain(_, _, newId) => newId !in db.issued
    case _ => true
  }

  /** A whole run of the machine: `dbs[i + 1]` is what step `i` made of `dbs[i]`. */
  ghost predicate IsHistory(dbs: seq<DB>, steps: seq<Step>) {
    && |dbs| == |steps| + 1
    && dbs[0] == EmptyDB(dbs[0].hookAttempts) && dbs[0].hookAttempts > 0
    && forall i :: 0 <= i < |steps| ==> Fresh(dbs[i], steps[i]) && dbs[i + 1] == Apply(dbs[i], steps[i])
  }
}
