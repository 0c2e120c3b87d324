/** What every transaction of the run queue keeps. */
module QueueInvariant {
  import opened Common
  import opened RetryPolicies
  import opened RunQueue

  // ---------------------------------------------------------------- one run and its log

  /** Rows that mark the end of a run. A scheduled retry is not one of them. */
  predicate IsEnd(kind: EventKind) {
    kind in {EvPrepareFailed, EvCancelled, EvCompleted, EvFailed, EvOrphan, EvStale}
  }

  datatype Tally = Tally(claims: nat, retries: nat, ends: nat, backoff: int)

  function Count(b: bool): nat { if b then 1 else 0 }

  /** Claims, scheduled retries, end marks and total scheduled backoff of a log. */
  function TallyOf(es: seq<Event>): Tally {
    if es == [] then Tally(0, 0, 0, 0)
    else
      var t := TallyOf(es[..|es| - 1]);
      var kind := es[|es| - 1].kind;
      Tally(t.claims + Count(kind.EvClaimed?), t.retries + Count(kind.EvRetryScheduled?), t.ends + Count(IsEnd(kind)),
            t.backoff + if kind.EvRetryScheduled? then kind.delay else 0)
  }

  ghost predicate Numbered(es: seq<Event>) {
    forall i :: 0 <= i < |es| ==> es[i].seqNo == i + 1
  }

  /** What a run row and its log say about each other. */
  ghost predicate RowOK(maxAttempts: int, r: Life, es: seq<Event>) {
    var t := TallyOf(es);
    && Numbered(es)
    && 1 <= r.attempt <= maxAttempts <= MAX_RETRY_ATTEMPTS
    && t.retries == r.attempt - 1
    && t.claims == r.attempt - Count(r.claimedAt.None?)
    && t.ends == Count(!IsActive(r.status))
    && r.attempt - 1 <= t.backoff <= (r.attempt - 1) * MAX_BACKOFF_SECONDS
    && (r.status == Queued ==> r.claimedAt.None?)
    && (r.status == Running ==> r.claimedAt.Some?)
    && (r.finishedAt.None? <==> IsActive(r.status))
  }

  lemma {:induction false} MaxSeqOfNumbered(es: seq<Event>)
    requires Numbered(es)
    ensures MaxSeq(es) == |es|
  {
    if es != [] {
      MaxSeqOfNumbered(es[..|es| - 1]);
    }
  }

  lemma AppendedLog(es: seq<Event>, kind: EventKind)
    requires Numbered(es)
    ensures Numbered(AppendEvent(es, kind))
    ensures var t, t' := TallyOf(es), TallyOf(AppendEvent(es, kind));
            && t'.claims == t.claims + Count(kind.EvClaimed?)
            && t'.retries == t.retries + Count(kind.EvRetryScheduled?)
            && t'.ends == t.ends + Count(IsEnd(kind))
            && t'.backoff == t.backoff + if kind.EvRetryScheduled? then kind.delay else 0
  {
    MaxSeqOfNumbered(es);
    assert AppendEvent(es, kind)[..|es|] == es;
  }

  lemma RetiredRowOK(m: int, r: Life, es: seq<Event>, status: Status, kind: EventKind, now: int)
    requires RowOK(m, r, es) && IsActive(r.status) && !IsActive(status) && IsEnd(kind)
    ensures RowOK(m, Retired(r, status, now), AppendEvent(es, kind))
  {
    AppendedLog(es, kind);
  }

  lemma StartedRowOK(m: int, r: Life, es: seq<Event>, now: int)
    requires RowOK(m, r, es) && r.status == Queued
    ensures RowOK(m, Started(r, now), AppendEvent(es, EvClaimed))
  {
    AppendedLog(es, EvClaimed);
  }

  lemma RequeuedRowOK(m: int, r: Life, es: seq<Event>, now: int, delay: int)
    requires RowOK(m, r, es) && r.status == Running && r.attempt < m && 1 <= delay <= MAX_BACKOFF_SECONDS
    ensures RowOK(m, Requeued(r, now, delay), AppendEvent(es, EvRetryScheduled(delay)))
  {
    AppendedLog(es, EvRetryScheduled(delay));
  }

  lemma NotedRowOK(m: int, r: Life, es: seq<Event>, kind: EventKind)
    requires RowOK(m, r, es) && IsNote(kind)
    ensures RowOK(m, r, AppendEvent(es, kind))
  {
    AppendedLog(es, kind);
  }

  lemma NewRowOK(m: int, logged: bool)
    requires 1 <= m <= MAX_RETRY_ATTEMPTS
    ensures RowOK(m, NewLife(), if logged then AppendEvent([], EvQueued) else [])
  {
    AppendedLog([], EvQueued);
  }

  // ---------------------------------------------------------------- the whole database

  ghost predicate KeysOK(db: DB) {
    && db.runs.Keys == db.origins.Keys == db.events.Keys <= db.issued
    && db.homes.Keys == db.issues.Keys
    && db.agents.Keys == db.policies.Keys
  }

  ghost predicate OriginRefs(o: Origin, homes: map<Id, Id>, agents: map<Id, Agent>, stamp: nat) {
    && o.issue in homes && o.agent in agents
    && agents[o.agent].workspace == homes[o.issue]
    && o.born < stamp
  }

  ghost predicate RefsOK(origins: map<Id, Origin>, homes: map<Id, Id>, agents: map<Id, Agent>, stamp: nat) {
    forall id :: id in origins ==> OriginRefs(origins[id], homes, agents, stamp)
  }

  ghost predicate HomesOK(homes: map<Id, Id>, agents: map<Id, Agent>, workspaces: set<Id>) {
    && (forall i :: i in homes ==> homes[i] in workspaces)
    && (forall a :: a in agents ==> agents[a].workspace in workspaces)
  }

  ghost predicate PoliciesOK(policies: map<Id, RetryPolicy>) {
    forall a :: a in policies ==> ValidPolicy(policies[a])
  }

  ghost predicate RowsOK(origins: map<Id, Origin>, runs: map<Id, Life>, events: map<Id, seq<Event>>) {
    forall id :: id in origins && id in runs && id in events ==> RowOK(origins[id].maxAttempts, runs[id], events[id])
  }

  /** An auto-chain dispatch to an agent that is not the workspace's main agent. */
  predicate IsWorkerDispatch(o: Origin, agents: map<Id, Agent>) {
    o.parent.Some? && o.trigger == Mention && o.agent in agents && !agents[o.agent].isMain
  }

  /** How a run hangs on its parent. */
  ghost predicate ChildOf(o: Origin, p: Origin, agents: map<Id, Agent>) {
    p.issue == o.issue && p.chain == o.chain && o.depth == p.depth + Count(IsWorkerDispatch(o, agents))
  }

  ghost predicate LinkOK(origins: map<Id, Origin>, agents: map<Id, Agent>, id: Id, o: Origin) {
    && o.chain in origins && origins[o.chain].issue == o.issue
    && (o.parent.None? ==> o.depth == 0 && o.chain == id)
    && (o.parent.Some? ==>
          o.parent.value in origins && origins[o.parent.value].born < o.born && ChildOf(o, origins[o.parent.value], agents))
  }

  ghost predicate LinksOK(origins: map<Id, Origin>, agents: map<Id, Agent>) {
    forall id :: id in origins ==> LinkOK(origins, agents, id, origins[id])
  }

  ghost predicate SameDispatch(o: Origin, o': Origin, agents: map<Id, Agent>) {
    IsWorkerDispatch(o, agents) && IsWorkerDispatch(o', agents) && o.chain == o'.chain && o.agent == o'.agent
  }

  ghost predicate DispatchedOnce(origins: map<Id, Origin>, agents: map<Id, Agent>) {
    forall x, y :: x in origins && y in origins && SameDispatch(origins[x], origins[y], agents) ==> x == y
  }

  ghost predicate OneRunningPerIssue(origins: map<Id, Origin>, runs: map<Id, Life>) {
    forall x, y ::
      (x in origins && x in runs && y in origins && y in runs && runs[x].status == Running && runs[y].status == Running
       && origins[x].issue == origins[y].issue)
      ==> x == y
  }

  ghost predicate OneQueuedPerIssueAgent(origins: map<Id, Origin>, runs: map<Id, Life>) {
    forall x, y ::
      (x in origins && x in runs && y in origins && y in runs && runs[x].status == Queued && runs[y].status == Queued
       && origins[x].issue == origins[y].issue && origins[x].agent == origins[y].agent)
      ==> x == y
  }

  /** No active run belongs to an issue with the given status in one of the given workspaces. */
  ghost predicate IdleWhen(origins: map<Id, Origin>, runs: map<Id, Life>, issues: map<Id, IssueStatus>, status: IssueStatus,
                           homes: map<Id, Id>, only: iset<Id>) {
    forall id :: (id in origins && id in runs && IsActive(runs[id].status) && origins[id].issue in issues
                  && origins[id].issue in homes && homes[origins[id].issue] in only)
                 ==> issues[origins[id].issue] != status
  }

  ghost const everywhere: iset<Id> := iset ws: Id | true

  ghost predicate DeliveryOK(hookAttempts: nat, d: Delivery) {
    && (d.status == Pending ==> d.attempt < hookAttempts)
    && (d.status == DeadLetter ==> d.attempt == hookAttempts)
    && (d.status == Delivered ==> 1 <= d.attempt <= hookAttempts)
  }

  ghost predicate DeliveriesOK(hookAttempts: nat, deliveries: seq<Delivery>) {
    hookAttempts > 0 && forall i :: 0 <= i < |deliveries| ==> DeliveryOK(hookAttempts, deliveries[i])
  }

  /** What holds of the row origins: who they refer to and how they hang together. */
  ghost predicate GraphOK(db: DB) {
    && RefsOK(db.origins, db.homes, db.agents, db.stamp)
    && LinksOK(db.origins, db.agents)
    && DispatchedOnce(db.origins, db.agents)
  }

  /** Which runs exclude each other. */
  ghost predicate ExclusionOK(origins: map<Id, Origin>, runs: map<Id, Life>, issues: map<Id, IssueStatus>, homes: map<Id, Id>) {
    && OneRunningPerIssue(origins, runs)
    && OneQueuedPerIssueAgent(origins, runs)
    && IdleWhen(origins, runs, issues, IssueCancelled, homes, everywhere)
  }

  /** What holds of the life of the runs. */
  ghost predicate LivesOK(db: DB) {
    RowsOK(db.origins, db.runs, db.events) && ExclusionOK(db.origins, db.runs, db.issues, db.homes)
  }

  ghost predicate SettingsOK(db: DB) {
    HomesOK(db.homes, db.agents, db.workspaces.Keys) && PoliciesOK(db.policies) && DeliveriesOK(db.hookAttempts, db.deliveries)
  }

  ghost predicate Inv(db: DB) {
    KeysOK(db) && GraphOK(db) && LivesOK(db) && SettingsOK(db)
  }

  // ---------------------------------------------------------------- row-level updates keep it

  lemma RetireKeepsRows(origins: map<Id, Origin>, runs: map<Id, Life>, events: map<Id, seq<Event>>,
                        ids: set<Id>, status: Status, kind: EventKind, now: int)
    requires RowsOK(origins, runs, events) && runs.Keys == events.Keys && !IsActive(status) && IsEnd(kind)
    ensures RowsOK(origins, RetireRows(runs, ids, status, now), RetireLogs(runs, events, ids, kind))
  {
    forall id | id in origins && id in runs && Hits(runs, ids, id)
      ensures RowOK(origins[id].maxAttempts, Retired(runs[id], status, now), AppendEvent(events[id], kind))
    {
      RetiredRowOK(origins[id].maxAttempts, runs[id], events[id], status, kind, now);
    }
  }

  /** `runs'` has no active run that was not active, in the same status, in `runs`. */
  ghost predicate Shrinks(runs: map<Id, Life>, runs': map<Id, Life>) {
    forall id :: id in runs' && IsActive(runs'[id].status) ==> id in runs && runs[id].status == runs'[id].status
  }

  lemma ShrinkKeepsExclusion(origins: map<Id, Origin>, runs: map<Id, Life>, runs': map<Id, Life>,
                             issues: map<Id, IssueStatus>, homes: map<Id, Id>)
    requires ExclusionOK(origins, runs, issues, homes) && Shrinks(runs, runs')
    ensures ExclusionOK(origins, runs', issues, homes)
  {
  }

  lemma RetireKeepsLives(db: DB, ids: set<Id>, status: Status, kind: EventKind, now: int)
    requires KeysOK(db) && LivesOK(db) && !IsActive(status) && IsEnd(kind)
    ensures LivesOK(Retire(db, ids, status, kind, now))
  {
    RetireKeepsRows(db.origins, db.runs, db.events, ids, status, kind, now);
    ShrinkKeepsExclusion(db.origins, db.runs, RetireRows(db.runs, ids, status, now), db.issues, db.homes);
  }

  lemma RetireKeeps(db: DB, ids: set<Id>, status: Status, kind: EventKind, now: int)
    requires Inv(db) && !IsActive(status) && IsEnd(kind)
    ensures Inv(Retire(db, ids, status, kind, now))
  {
    hide RowsOK, ExclusionOK, LinksOK, DispatchedOnce, RefsOK;
    RetireKeepsLives(db, ids, status, kind, now);
  }

  lemma RowAt(db: DB, id: Id)
    requires Inv(db) && Has(db, id)
    ensures id in db.events && RowOK(db.origins[id].maxAttempts, db.runs[id], db.events[id])
  {
    hide ExclusionOK, LinksOK, DispatchedOnce, RefsOK;
  }

  lemma WriteLogKeeps(db: DB, id: Id, kind: EventKind)
    requires Inv(db) && Has(db, id) && IsNote(kind)
    ensures Inv(WriteLog(db, id, kind))
  {
    hide RowsOK, ExclusionOK, LinksOK, DispatchedOnce, RefsOK;
    RowAt(db, id);
    NotedRowOK(db.origins[id].maxAttempts, db.runs[id], db.events[id], kind);
    SetRowKeeps(db.origins, db.runs, db.events, id, db.runs[id], AppendEvent(db.events[id], kind));
    assert db.runs == db.runs[id := db.runs[id]];
  }

  /** A row the queue may insert under the fresh id `id`. */
  ghost predicate Insertable(db: DB, id: Id, o: Origin) {
    && id !in db.issued
    && 1 <= o.maxAttempts <= MAX_RETRY_ATTEMPTS
    && OriginRefs(o.(born := db.stamp), db.homes, db.agents, db.stamp + 1)
    && (o.issue in db.issues ==> db.issues[o.issue] != IssueCancelled)
    && !QueuedClash(db.origins, db.runs, o.issue, o.agent)
    && (o.parent.None? ==> o.depth == 0 && o.chain == id)
    && (o.parent.Some? ==> o.parent.value in db.origins && ChildOf(o, db.origins[o.parent.value], db.agents))
    && (IsWorkerDispatch(o, db.agents) ==> !SeenInChain(db.origins, o.issue, o.agent, o.chain))
  }

  lemma NewLinkOK(db: DB, id: Id, o: Origin)
    requires KeysOK(db) && GraphOK(db) && Insertable(db, id, o)
    ensures LinkOK(db.origins[id := o.(born := db.stamp)], db.agents, id, o.(born := db.stamp))
  {
    hide DispatchedOnce, SeenInChain, QueuedClash, LinksOK, RefsOK;
    var o' := o.(born := db.stamp);
    assert IsWorkerDispatch(o', db.agents) == IsWorkerDispatch(o, db.agents);
    if o.parent.Some? {
      var p := o.parent.value;
      GraphAt(db, p);
    }
  }

  lemma GraphAt(db: DB, id: Id)
    requires GraphOK(db) && id in db.origins
    ensures LinkOK(db.origins, db.agents, id, db.origins[id]) && OriginRefs(db.origins[id], db.homes, db.agents, db.stamp)
  {
    hide DispatchedOnce, LinkOK, OriginRefs;
  }

  lemma InsertKeepsLinks(db: DB, id: Id, o: Origin)
    requires KeysOK(db) && GraphOK(db) && Insertable(db, id, o)
    ensures LinksOK(db.origins[id := o.(born := db.stamp)], db.agents)
  {
    NewLinkOK(db, id, o);
    hide DispatchedOnce, RefsOK, SeenInChain, QueuedClash;
    var origins := db.origins[id := o.(born := db.stamp)];
    forall x | x in origins && x != id
      ensures LinkOK(origins, db.agents, x, origins[x])
    {
      assert LinkOK(db.origins, db.agents, x, db.origins[x]);
    }
  }

  lemma InsertKeepsRefs(db: DB, id: Id, o: Origin)
    requires GraphOK(db) && Insertable(db, id, o)
    ensures RefsOK(db.origins[id := o.(born := db.stamp)], db.homes, db.agents, db.stamp + 1)
  {
    hide LinksOK, DispatchedOnce;
    forall x | x in db.origins
      ensures OriginRefs(db.origins[x], db.homes, db.agents, db.stamp + 1)
    {
      assert OriginRefs(db.origins[x], db.homes, db.agents, db.stamp);
    }
  }

  lemma InsertKeepsOnce(db: DB, id: Id, o: Origin)
    requires KeysOK(db) && GraphOK(db) && Insertable(db, id, o)
    ensures DispatchedOnce(db.origins[id := o.(born := db.stamp)], db.agents)
  {
    hide RefsOK, QueuedClash, OriginRefs;
    var o' := o.(born := db.stamp);
    assert IsWorkerDispatch(o', db.agents) == IsWorkerDispatch(o, db.agents);
    forall x | x in db.origins && IsWorkerDispatch(o, db.agents)
      ensures !SameDispatch(db.origins[x], o', db.agents)
    {
      assert LinkOK(db.origins, db.agents, x, db.origins[x]);
      assert LinkOK(db.origins, db.agents, o.parent.value, db.origins[o.parent.value]);
    }
  }

  lemma InsertKeepsLives(db: DB, id: Id, o: Origin, logged: bool)
    requires KeysOK(db) && LivesOK(db) && Insertable(db, id, o)
    ensures LivesOK(Enqueue(db, id, o, logged))
  {
    NewRowOK(o.maxAttempts, logged);
    hide RowOK;
  }

  lemma EnqueueKeeps(db: DB, id: Id, o: Origin, logged: bool)
    requires Inv(db) && Insertable(db, id, o)
    ensures Inv(Enqueue(db, id, o, logged))
  {
    hide RowsOK, ExclusionOK, LinksOK, DispatchedOnce, RefsOK;
    InsertKeepsRefs(db, id, o);
    InsertKeepsLinks(db, id, o);
    InsertKeepsOnce(db, id, o);
    InsertKeepsLives(db, id, o, logged);
  }

  lemma SetIssueKeeps(db: DB, i: Id, status: IssueStatus)
    requires Inv(db) && i in db.homes && (status == IssueCancelled ==> !HasActive(db, i))
    ensures Inv(SetIssue(db, i, status))
  {
  }

  lemma SetRowKeeps(origins: map<Id, Origin>, runs: map<Id, Life>, events: map<Id, seq<Event>>, id: Id, r: Life, es: seq<Event>)
    requires RowsOK(origins, runs, events) && id in origins && RowOK(origins[id].maxAttempts, r, es)
    ensures RowsOK(origins, runs[id := r], events[id := es])
  {
  }

  lemma SetRunKeepsExclusion(db: DB, id: Id, life: Life)
    requires ExclusionOK(db.origins, db.runs, db.issues, db.homes) && Has(db, id) && IsActive(db.runs[id].status)
    requires life.status == Running ==> !HasRunning(db, db.origins[id].issue)
    requires life.status == Queued ==> !QueuedClash(db.origins, db.runs, db.origins[id].issue, db.origins[id].agent)
    ensures ExclusionOK(db.origins, db.runs[id := life], db.issues, db.homes)
  {
  }

  /** Giving one active run a new life that its log accounts for and that excludes no other run. */
  lemma SetRunKeeps(db: DB, id: Id, life: Life, kind: EventKind)
    requires Inv(db) && Has(db, id) && IsActive(db.runs[id].status)
    requires RowOK(db.origins[id].maxAttempts, life, AppendEvent(db.events[id], kind))
    requires life.status == Running ==> !HasRunning(db, db.origins[id].issue)
    requires life.status == Queued ==> !QueuedClash(db.origins, db.runs, db.origins[id].issue, db.origins[id].agent)
    ensures Inv(SetRun(db, id, life, kind))
  {
    hide RowsOK, ExclusionOK, LinksOK, DispatchedOnce, RefsOK;
    SetRowKeeps(db.origins, db.runs, db.events, id, life, AppendEvent(db.events[id], kind));
    SetRunKeepsExclusion(db, id, life);
  }

  lemma ClaimKeeps(db: DB, now: int)
    requires Inv(db)
    ensures Inv(ClaimNextRun(db, now))
  {
    var next := NextRun(db, now);
    if next.Some? {
      var id := next.value;
      StartedRowOK(db.origins[id].maxAttempts, db.runs[id], db.events[id], now);
      SetRunKeeps(db, id, Started(db.runs[id], now), EvClaimed);
    }
  }

  lemma RequeueKeeps(db: DB, id: Id, kind: FailureKind, now: int)
    requires Inv(db) && RescheduleRunForRetry(db, id, kind, now).Ok?
    ensures Inv(RescheduleRunForRetry(db, id, kind, now).value)
  {
    var o, r := db.origins[id], db.runs[id];
    var delay := BackoffSeconds(r.attempt, db.policies[o.agent]);
    RequeuedRowOK(o.maxAttempts, r, db.events[id], now, delay);
    SetRunKeeps(db, id, Requeued(r, now, delay), EvRetryScheduled(delay));
  }

  lemma HeartbeatKeeps(db: DB, id: Id, now: int)
    requires Inv(db)
    ensures Inv(Heartbeat(db, id, now))
  {
    hide RowsOK, ExclusionOK, LinksOK, DispatchedOnce, RefsOK;
    if id in db.runs && db.runs[id].status == Running {
      var r := db.runs[id].(heartbeatAt := Some(now));
      RowAt(db, id);
      SetRowKeeps(db.origins, db.runs, db.events, id, r, db.events[id]);
      assert db.events == db.events[id := db.events[id]];
      ShrinkKeepsExclusion(db.origins, db.runs, db.runs[id := r], db.issues, db.homes);
    }
  }

  lemma DropKeepsGraph(db: DB, issue: Id)
    requires GraphOK(db)
    ensures GraphOK(db.(homes := db.homes - {issue}, origins := db.origins - RunsOf(db, issue)))
  {
    var origins, homes := db.origins - RunsOf(db, issue), db.homes - {issue};
    forall x | x in origins
      ensures LinkOK(origins, db.agents, x, origins[x]) && OriginRefs(origins[x], homes, db.agents, db.stamp)
    {
      assert LinkOK(db.origins, db.agents, x, db.origins[x]) && OriginRefs(db.origins[x], db.homes, db.agents, db.stamp);
    }
  }

  lemma DropKeepsLives(db: DB, issue: Id, gone: set<Id>)
    requires LivesOK(db)
    ensures LivesOK(db.(homes := db.homes - {issue}, issues := db.issues - {issue}, origins := db.origins - gone,
                        runs := db.runs - gone, events := db.events - gone))
  {
    hide RowOK;
  }

  lemma DeleteIssueKeeps(db: DB, issue: Id)
    requires Inv(db) && DeleteIssue(db, issue).Ok?
    ensures Inv(DeleteIssue(db, issue).value)
  {
    hide RowsOK, ExclusionOK, LinksOK, DispatchedOnce, RefsOK;
    DropKeepsGraph(db, issue);
    DropKeepsLives(db, issue, RunsOf(db, issue));
  }

  /** New agents change nothing for the rows that are already there. */
  lemma MoreAgentsKeepGraph(db: DB, agents: map<Id, Agent>)
    requires GraphOK(db) && db.agents.Keys <= agents.Keys && forall a :: a in db.agents ==> agents[a] == db.agents[a]
    ensures GraphOK(db.(agents := agents))
  {
    forall x | x in db.origins
      ensures IsWorkerDispatch(db.origins[x], agents) == IsWorkerDispatch(db.origins[x], db.agents)
      ensures OriginRefs(db.origins[x], db.homes, agents, db.stamp) && LinkOK(db.origins, agents, x, db.origins[x])
    {
      assert OriginRefs(db.origins[x], db.homes, db.agents, db.stamp) && LinkOK(db.origins, db.agents, x, db.origins[x]);
    }
  }

  lemma AddAgentKeeps(db: DB, agent: Id, ws: Id, isMain: bool, policy: RetryPolicy)
    requires Inv(db)
    ensures Inv(AddAgent(db, agent, ws, isMain, policy))
  {
    hide RowsOK, ExclusionOK, LinksOK, DispatchedOnce, RefsOK;
    if agent !in db.agents {
      MoreAgentsKeepGraph(db, db.agents[agent := Agent(ws, isMain)]);
    }
  }

  lemma {:induction false} FanOutPending(hooks: seq<Webhook>, n: nat, ws: Id, event: HookEvent, m: nat)
    requires n <= |hooks| && m > 0
    ensures DeliveriesOK(m, FanOut(hooks, n, ws, event))
  {
    if n > 0 {
      FanOutPending(hooks, n - 1, ws, event, m);
    }
  }

  lemma NotifyKeeps(db: DB, issue: Id, event: HookEvent)
    requires Inv(db)
    ensures Inv(Notify(db, issue, event))
  {
    hide RowsOK, ExclusionOK, LinksOK, DispatchedOnce, RefsOK;
    if issue in db.homes {
      FanOutPending(db.webhooks, |db.webhooks|, db.homes[issue], event, db.hookAttempts);
    }
  }

  // ---------------------------------------------------------------- transactions keep it

  lemma DispatchKeeps(db: DB, id: Id, o: Origin, f: FinishInput, now: int, newId: Id)
    requires Inv(db) && id in db.origins && db.origins[id] == o && newId !in db.issued
    requires o.issue in db.issues && db.issues[o.issue] != IssueCancelled
    ensures Inv(DispatchAutoChain(db, id, o, f, now, newId))
  {
    hide RowsOK, ExclusionOK, LinksOK, DispatchedOnce, RefsOK;
    var target := ChainTarget(db, o, f, now);
    if target.Some? {
      var a := target.value;
      EnqueueKeeps(db, newId, ChildOrigin(id, o, a, db.agents[a].isMain, now, db.policies[a].maxAttempts), true);
    }
  }

  lemma CloseIssueKeeps(db: DB, issue: Id)
    requires Inv(db) && issue in db.homes
    ensures Inv(CloseIssue(db, issue))
  {
    SetIssueKeeps(db, issue, IssueDone);
    var closed := SetIssue(db, issue, IssueDone);
    NotifyKeeps(closed, issue, HookRunCompleted);
    NotifyKeeps(Notify(closed, issue, HookRunCompleted), issue, HookIssueDone);
  }

  lemma RunningIsNotCancelled(db: DB, id: Id)
    requires Inv(db) && Has(db, id) && IsActive(db.runs[id].status)
    ensures db.origins[id].issue in db.homes && db.origins[id].issue in db.issues
    ensures db.issues[db.origins[id].issue] != IssueCancelled
  {
    assert OriginRefs(db.origins[id], db.homes, db.agents, db.stamp);
  }

  lemma FinishDoneKeeps(db: DB, id: Id, f: FinishInput, now: int, newId: Id)
    requires Inv(db) && Has(db, id) && db.runs[id].status == Running && newId !in db.issued
    ensures Inv(FinishDone(db, id, f, now, newId))
  {
    hide RowsOK, ExclusionOK, LinksOK, DispatchedOnce, RefsOK;
    var o := db.origins[id];
    RunningIsNotCancelled(db, id);
    RetireKeeps(db, {id}, Done, EvCompleted, now);
    var done := Retire(db, {id}, Done, EvCompleted, now);
    DispatchKeeps(done, id, o, f, now, newId);
    var chained := DispatchAutoChain(done, id, o, f, now, newId);
    if ChainTarget(done, o, f, now).None? && AutoCloses(db, o.issue) {
      CloseIssueKeeps(chained, o.issue);
    } else {
      NotifyKeeps(chained, o.issue, HookRunCompleted);
    }
  }

  lemma FailedKeeps(db: DB, id: Id, kind: EventKind, now: int, issue: Id)
    requires Inv(db) && IsEnd(kind)
    ensures Inv(Notify(Retire(db, {id}, Failed, kind, now), issue, HookRunFailed))
  {
    RetireKeeps(db, {id}, Failed, kind, now);
    NotifyKeeps(Retire(db, {id}, Failed, kind, now), issue, HookRunFailed);
  }

  lemma CompleteKeeps(db: DB, id: Id, f: FinishInput, now: int, newId: Id)
    requires Inv(db) && newId !in db.issued
    ensures Inv(Settle(db, CompleteRunWithReason(db, id, f, now, newId)))
  {
    hide RowsOK, ExclusionOK, LinksOK, DispatchedOnce, RefsOK;
    if Has(db, id) && db.runs[id].status == Running {
      var noted := db;
      if f.stdoutTruncated {
        WriteLogKeeps(db, id, EvStdoutTruncated);
        noted := WriteLog(db, id, EvStdoutTruncated);
      }
      if FinishStatus(f) == Done {
        FinishDoneKeeps(noted, id, f, now, newId);
      } else {
        FailedKeeps(noted, id, EvFailed, now, db.origins[id].issue);
      }
    }
  }

  lemma RetryOrCompleteKeeps(db: DB, id: Id, x: Execution, now: int, newId: Id)
    requires Inv(db) && newId !in db.issued
    ensures Inv(RetryOrComplete(db, id, x, now, newId))
  {
    hide RowsOK, ExclusionOK, LinksOK, DispatchedOnce, RefsOK;
    if WantsRetry(x) && RescheduleRunForRetry(db, id, KindOf(ReasonOf(x)), now).Ok? {
      RequeueKeeps(db, id, KindOf(ReasonOf(x)), now);
    } else {
      CompleteKeeps(db, id, InputOf(x), now, newId);
    }
  }

  lemma NoteKeeps(db: DB, id: Id, kind: EventKind)
    requires Inv(db)
    ensures Inv(Note(db, id, kind))
  {
    if Has(db, id) && IsNote(kind) {
      WriteLogKeeps(db, id, kind);
    }
  }

  lemma FinishKeeps(db: DB, id: Id, x: Execution, now: int, newId: Id)
    requires Inv(db) && newId !in db.issued
    ensures Inv(FinishRun(db, id, x, now, newId))
  {
    hide RowsOK, ExclusionOK, LinksOK, DispatchedOnce, RefsOK;
    if x.cancelled {
      RetireKeeps(db, {id}, Cancelled, EvCancelled, now);
    } else {
      NoteKeeps(db, id, EvStdoutSanitized);
      RetryOrCompleteKeeps(if x.sanitized then Note(db, id, EvStdoutSanitized) else db, id, x, now, newId);
    }
  }

  lemma NewIssueKeeps(db: DB, issue: Id, ws: Id)
    requires Inv(db) && ws in db.workspaces && issue !in db.homes
    ensures Inv(db.(homes := db.homes[issue := ws], issues := db.issues[issue := Open]))
    ensures forall x :: x in db.origins ==> db.origins[x].issue != issue
  {
    hide RowsOK, LinksOK, DispatchedOnce, OneRunningPerIssue, OneQueuedPerIssueAgent;
    forall x | x in db.origins
      ensures OriginRefs(db.origins[x], db.homes[issue := ws], db.agents, db.stamp) && db.origins[x].issue != issue
    {
      assert OriginRefs(db.origins[x], db.homes, db.agents, db.stamp);
    }
  }

  lemma CreateIssueKeeps(db: DB, issue: Id, ws: Id, agent: Id, logged: bool, now: int, newId: Id)
    requires Inv(db) && newId !in db.issued
    ensures Inv(Settle(db, CreateIssueWithInitialRun(db, issue, ws, agent, logged, now, newId)))
  {
    hide RowsOK, ExclusionOK, LinksOK, DispatchedOnce, RefsOK;
    if CreateIssueWithInitialRun(db, issue, ws, agent, logged, now, newId).Ok? {
      NewIssueKeeps(db, issue, ws);
      var created := db.(homes := db.homes[issue := ws], issues := db.issues[issue := Open]);
      var trigger := if logged then IssueCreated else Autopilot;
      EnqueueKeeps(created, newId, RootOrigin(issue, agent, trigger, newId, now, db.policies[agent].maxAttempts), logged);
    }
  }

  /** Reopening an issue and enqueueing a row on it. */
  lemma ReopenKeeps(db: DB, issue: Id, id: Id, o: Origin)
    requires Inv(db) && issue in db.homes && o.issue == issue && Insertable(SetIssue(db, issue, Open), id, o)
    ensures Inv(Enqueue(SetIssue(db, issue, Open), id, o, true))
  {
    SetIssueKeeps(db, issue, Open);
    EnqueueKeeps(SetIssue(db, issue, Open), id, o, true);
  }

  lemma CommentKeeps(db: DB, issue: Id, agent: Id, now: int, newId: Id)
    requires Inv(db) && newId !in db.issued
    ensures Inv(Settle(db, AddUserComment(db, issue, agent, now, newId)))
    ensures Inv(Settle(db, RerunIssue(db, issue, agent, now, newId)))
  {
    hide RowsOK, ExclusionOK, LinksOK, DispatchedOnce, RefsOK;
    if issue in db.homes && AgentAt(db, agent, db.homes[issue]) && !QueuedClash(db.origins, db.runs, issue, agent) {
      var m := db.policies[agent].maxAttempts;
      ReopenKeeps(db, issue, newId, RootOrigin(issue, agent, Mention, newId, now, m));
      ReopenKeeps(db, issue, newId, RootOrigin(issue, agent, Rerun, newId, now, m));
    }
  }

  lemma RetryChainKeeps(db: DB, last: Id, now: int, newId: Id)
    requires Inv(db) && newId !in db.issued
    ensures Inv(Settle(db, RetryFailedRunInChain(db, last, now, newId)))
  {
    if RetryFailedRunInChain(db, last, now, newId).Ok? {
      var o := db.origins[last];
      assert OriginRefs(o, db.homes, db.agents, db.stamp);
      ReopenKeeps(db, o.issue, newId, RetryOrigin(last, o, now, db.policies[o.agent].maxAttempts));
    }
  }

  lemma CancelIssueKeeps(db: DB, issue: Id, now: int)
    requires Inv(db) && issue in db.homes
    ensures Inv(CancelIssue(db, issue, now))
  {
    hide RowsOK, ExclusionOK, LinksOK, DispatchedOnce, RefsOK;
    RetireKeeps(db, RunsOf(db, issue), Cancelled, EvCancelled, now);
    var idle := Retire(db, RunsOf(db, issue), Cancelled, EvCancelled, now);
    assert forall id :: id in idle.runs && id in RunsOf(db, issue) ==> !IsActive(idle.runs[id].status);
    SetIssueKeeps(idle, issue, IssueCancelled);
    NotifyKeeps(SetIssue(idle, issue, IssueCancelled), issue, HookIssueCancelled);
  }

  lemma UpdateIssueKeeps(db: DB, issue: Id, status: IssueStatus, now: int)
    requires Inv(db)
    ensures Inv(Settle(db, UpdateIssue(db, issue, status, now)))
  {
    if issue in db.homes {
      if status == IssueCancelled {
        CancelIssueKeeps(db, issue, now);
      } else {
        SetIssueKeeps(db, issue, status);
      }
    }
  }

  ghost predicate SameQueue(db: DB, db': DB) {
    && db'.homes == db.homes && db'.issues == db.issues && db'.origins == db.origins
    && db'.runs == db.runs && db'.events == db.events && db'.issued == db.issued
  }

  lemma DeliveriesSpareQueue(db: DB, d: nat)
    ensures SameQueue(db, Settle(db, MarkDelivered(db, d))) && SameQueue(db, Settle(db, MarkFailure(db, d)))
    ensures SameQueue(db, Settle(db, Resubmit(db, d)))
  {
    if d < |db.deliveries| && db.deliveries[d].status == Pending {}
    if Resubmit(db, d).Ok? {}
  }

  lemma AgentsSpareQueue(db: DB, agent: Id, ws: Id, isMain: bool, policy: RetryPolicy)
    ensures SameQueue(db, AddAgent(db, agent, ws, isMain, policy)) && SameQueue(db, SetPolicy(db, agent, policy))
  {
    hide ValidPolicy;
    if agent !in db.agents && ws in db.workspaces && ValidPolicy(policy) {}
    if agent in db.policies && ValidPolicy(policy) {}
  }

  /** Settings and deliveries share no table with the queue. */
  lemma SettingsSpareQueue(db: DB, step: Step)
    requires IsSettingsStep(step)
    ensures SameQueue(db, ApplySettings(db, step))
  {
    hide AddAgent, SetPolicy, MarkDelivered, MarkFailure, Resubmit;
    match step
    case StPutWorkspace(_, _) =>
    case StAddAgent(agent, ws, isMain, policy) => AgentsSpareQueue(db, agent, ws, isMain, policy);
    case StSetPolicy(agent, policy) => AgentsSpareQueue(db, agent, 0, false, policy);
    case StAddWebhook(_) =>
    case StSetWebhook(index, _, _) => if index < |db.webhooks| {}
    case StDelivered(d) => DeliveriesSpareQueue(db, d);
    case StDeliveryFailed(d) => DeliveriesSpareQueue(db, d);
    case StResubmit(d) => DeliveriesSpareQueue(db, d);
  }

  lemma SettingsStepsKeep(db: DB, step: Step)
    requires Inv(db) && IsSettingsStep(step)
    ensures Inv(ApplySettings(db, step))
  {
    hide RowsOK, ExclusionOK, LinksOK, DispatchedOnce, RefsOK;
    if step.StAddAgent? {
      AddAgentKeeps(db, step.agent, step.ws, step.isMain, step.policy);
    }
  }

  lemma FailInfrastructureKeeps(db: DB, run: Id, preparing: bool, now: int)
    requires Inv(db)
    ensures Inv(Settle(db, FailInfrastructureRun(db, run, preparing, now)))
  {
    hide Inv;
    if Has(db, run) {
      FailedKeeps(db, run, if preparing then EvPrepareFailed else EvFailed, now, db.origins[run].issue);
    }
  }

  lemma RetireStepsKeep(db: DB, step: Step)
    requires Inv(db) && IsRetireStep(step)
    ensures Inv(ApplyRetire(db, step))
  {
    hide Inv, FailInfrastructureRun, UpdateIssue, RetireRows, RetireLogs;
    match step
    case StFailInfrastructure(run, preparing, now) => FailInfrastructureKeeps(db, run, preparing, now);
    case StCancel(run, now) => RetireKeeps(db, {run}, Cancelled, EvCancelled, now);
    case StCancelChain(chain, now) => RetireKeeps(db, ChainMembers(db, chain), Cancelled, EvCancelled, now);
    case StRecoverStale(ids, now) => RetireKeeps(db, RunningOf(db, ids), Cancelled, EvStale, now);
    case StRecoverOrphans(now) => RetireKeeps(db, RunningOf(db, db.runs.Keys), Cancelled, EvOrphan, now);
    case StUpdateIssue(issue, status, now) => UpdateIssueKeeps(db, issue, status, now);
  }

  lemma EnqueueStepsKeep(db: DB, step: Step)
    requires Inv(db) && IsEnqueueStep(step) && step.newId !in db.issued
    ensures Inv(ApplyEnqueue(db, step))
  {
    hide Inv, CreateIssueWithInitialRun, AddUserComment, RerunIssue, RetryFailedRunInChain;
    match step
    case StCreateIssue(issue, ws, agent, logged, now, newId) => CreateIssueKeeps(db, issue, ws, agent, logged, now, newId);
    case StComment(issue, agent, now, newId) => CommentKeeps(db, issue, agent, now, newId);
    case StRerun(issue, agent, now, newId) => CommentKeeps(db, issue, agent, now, newId);
    case StRetryChain(last, now, newId) => RetryChainKeeps(db, last, now, newId);
  }

  /** Every transaction, whatever its arguments, keeps the invariant. */
  lemma StepKeeps(db: DB, step: Step)
    requires Inv(db) && Fresh(db, step)
    ensures Inv(Apply(db, step))
  {
    hide Inv, ApplyEnqueue, ApplyRetire, ApplySettings, ClaimNextRun, FinishRun, DeleteIssue, Note, Heartbeat;
    if IsEnqueueStep(step) {
      EnqueueStepsKeep(db, step);
    } else if IsRetireStep(step) {
      RetireStepsKeep(db, step);
    } else if IsSettingsStep(step) {
      SettingsStepsKeep(db, step);
    } else {
      match step
      case StClaim(now) => ClaimKeeps(db, now);
      case StFinish(run, x, now, newId) => FinishKeeps(db, run, x, now, newId);
      case StNote(run, kind) => NoteKeeps(db, run, kind);
      case StHeartbeat(run, now) => HeartbeatKeeps(db, run, now);
      case StDeleteIssue(issue) =>
        if DeleteIssue(db, issue).Ok? {
          DeleteIssueKeeps(db, issue);
        }
    }
  }

  /** The invariant holds in every state of every run of the machine. */
  lemma {:induction false} HistoryInv(dbs: seq<DB>, steps: seq<Step>, i: nat)
    requires IsHistory(dbs, steps) && i < |dbs|
    ensures Inv(dbs[i])
  {
    if i > 0 {
      HistoryInv(dbs, steps, i - 1);
      StepKeeps(dbs[i - 1], steps[i - 1]);
    }
  }
}
