# Cron agent dashboard: run queue, cancel hand-off and text algorithms

A Dafny model of the dashboard's durable run queue, of the hand-off between cancel requests and the worker pool, and of
the self-contained algorithms around them, with proofs about every history of the queue and every input of the algorithms.
`dafny verify dfyconfig.toml` checks the whole project.

## How it is organised

| file | what it holds |
|---|---|
| `RunQueue.dfy` | the tables (`DB`), each store transaction as a function from database to database, the machine (`Step`, `Apply`, `IsHistory`) |
| `RetryPolicy.dfy` | retry policies: validation, the retry decision, the backoff |
| `QueueInvariant.dfy` | what every transaction keeps (`Inv`), lemma by lemma up to `StepKeeps` and `HistoryInv` |
| `QueueEvolution.dfy`, `QueueInsertion.dfy` | how a transaction may move runs, and which rows it may insert |
| `QueueLifecycle.dfy`, `QueueChains.dfy`, `QueueExclusion.dfy`, `QueueWebhooks.dfy`, `QueueAnnouncements.dfy` | the theorems over whole histories |
| `QueueOutcomes.dfy`, `QueueTables.dfy`, `QueueLogs.dfy` | what every step makes of every run row, issue, setting and log, first by the transactions' own decisions, then on the columns of the tables alone |
| `QueueWitness.dfy` | a concrete history in which a refused retry leaves its run running |
| `Store.dfy` | the store as a class whose methods update the tables in place, each proved to be one step of the machine |
| `Worktrees.dfy` | the worktree garbage collector interleaved with the queue |
| `CancelRegistry.dfy`, `CancelHandoff.dfy`, `HandoffRows.dfy` | the pool's registry, the interleaved cancel protocol, and the link from its rows to the queue's |
| `OutputCapture.dfy`, `Utf8.dfy`, `EventDetails.dfy`, `CodeFences.dfy`, `Sse.dfy`, `Decimal.dfy`, `Identifiers.dfy` | the algorithms |

Ground rules of the model. A store transaction is one atomic step (the database is opened with a single connection).
Time is an integer clock, read once per transaction. New run ids have never been handed out before. Statements that the
program executes outside the transaction (a check before a rerun, the selection of stale runs) are separate, so a
transaction must keep the invariants whatever they saw. A finished execution's store update and the deregistration of the
same worker are one step of the hand-off.

## What turned out differently from what one would expect

- **Cancel hand-off.** "If the registry answered that nobody executes the run, and the store cancel then committed, every
  later execution starts cancelled" is false as it stands: the first execution takes the waiting cancel over, its start
  fails, a retry is scheduled, and the next execution can be registered before the store cancel commits
  (`SlowCancelMissesExecution`). `RegistrationSeesCancel` gives the exact condition on the interleaving, and one second
  between the answer and the commit is the exact bound on the delay (`PromptCancelReachesEveryExecution`).
- **A retry can be refused by the queued-row index.** If the same agent already has a queued run on the issue, the retry of
  a running one fails with a conflict and the run stays `running`. `FinishLeavesRunning` shows that this is the only case,
  and `TimedOutRunStaysRunning` is a history of six steps that ends there.
- **CR LF streams.** Reading an event stream in chunks is not independent of where the transport cuts it. What has been read
  is safe for every continuation exactly if it does not end with a carriage return (`TwoPieces` for one cut,
  `SplitIndependenceIff` for a list of chunks). A particular continuation may hide the difference; `CutPairDispatchesEarly`
  shows what happens to any line whose CR LF is cut.
- **Carriage returns in logs.** A frame is read back exactly if its text has no carriage return (`FrameRoundTrip`).
- **A failed restore.** A history restore that stops at a refused row leaves the rows before it behind without moving the
  counter; `FailedRestore` says exactly when later allocations are still safe, and `BlockedUntilFreed` how long creation
  fails when they are not.
- **Draining.** The capped copy promises to drain its source always. It reads up to the chunk on which the sink stalls, so
  the source is drained exactly if the sink does not stall before the last chunk (`DrainedIff`, `CopyWithCapAndDrain`);
  `FullSinkLeavesTheRest` is an input on which it is not.

## Model

| member | source | states |
|---|---|---|
| `RetryPolicies.ParseRetryPolicy` | internal/store/resource_controls.go:24-46 | a decoded policy is accepted unchanged exactly when attempts are 1..5, every wait is 1..3600 s and only transient kinds are listed; the empty text means one attempt |
| `RetryPolicies.BackoffSeconds` | internal/store/resource_controls.go:123-142 | the wait of an attempt is its entry of the schedule, the last entry beyond it, 10, 60 or 300 s without a schedule, and under a valid policy between one second and one hour |
| `RetryPolicies.OnlyTransientFailuresRetry` | internal/store/resource_controls.go:90-108 | a retry is granted only for a timeout or an executor error, and never after the last attempt |
| `RunQueue.NormalizeMaxDepth` | internal/store/workspace.go:16-24 | the depth limit is kept within 1..20; above it becomes 20, below it the default 5 |
| `RunQueue.NormalizeDailyRunLimit` | internal/store/workspace.go:26-34 | the daily limit is kept within 0..1000; above it becomes 1000, below it 0 |
| `QueueInvariant.AppendedLog` | internal/store/run_events.go:96-131 | a log numbered 1..n stays numbered after an append, and its claim, retry, end and backoff totals grow by exactly the new row |
| `QueueInvariant.RetireKeeps` | internal/store/cancellation.go:163-231 | ending any set of runs keeps the whole queue invariant |
| `QueueInvariant.EnqueueKeeps` | internal/store/auto_chain.go:118-130 | inserting a lawful row keeps the invariant, including parent links, chain membership and one dispatch per agent and chain |
| `QueueInvariant.ClaimKeeps` | internal/store/runs.go:112-180 | a claim keeps the invariant, in particular one running run per issue |
| `QueueInvariant.RequeueKeeps` | internal/store/cancellation.go:344-413 | a scheduled retry keeps the invariant: attempts, log and backoff stay in step |
| `QueueInvariant.FinishKeeps` | internal/app/worker_store.go:137-197 | whatever a worker reports, its finish keeps the invariant |
| `QueueInvariant.RetryChainKeeps` | internal/store/chain_retry.go:45-77 | a chain retry keeps the invariant |
| `QueueInvariant.UpdateIssueKeeps` | internal/store/issues.go:237-301 | an issue status change keeps the invariant |
| `QueueInvariant.DeleteIssueKeeps` | internal/store/issues.go:356-378 | deleting an issue leaves no dangling parent or chain |
| `QueueInvariant.StepKeeps` | internal/store/runs.go:112-517 | every transaction with any arguments keeps the invariant |
| `QueueInvariant.HistoryInv` | internal/store/runs.go:112-517 | the invariant holds in every state of every history |
| `QueueEvolution.StepEvolves` | internal/store/runs.go:355-361 | a transaction moves a run only queued to running, running to queued with one more attempt, or active to finished; only a claim starts a run; only finished rows disappear |
| `QueueInsertion.StepInserts` | internal/store/auto_chain.go:78-172 | a transaction inserts at most one row, and a dispatched one only when depth and daily guards let it |
| `QueueTables.EveryRow` | internal/store/runs.go:112-517 | for every run in every step of every history, on the columns: the row goes exactly with its idle issue, and otherwise the whole row after the step (status, claim, heartbeat and end times, attempt, due time) is the table's |
| `QueueTables.EveryIssue` | internal/store/issues.go:204-306 | for every issue in every step of every history, on the columns: closed, cancelled, reopened, auto-closed and deleted in exactly the listed cases |
| `QueueTables.EveryInsertion` | internal/store/auto_chain.go:21-147 | in every step of every history a run is inserted exactly when the written-out guards of creation, mention, rerun, chain retry or dispatch hold, with exactly the listed issue, agent, trigger, parent, chain, depth, time and attempts |
| `QueueTables.TargetIff` | internal/store/auto_chain.go:78-200 | a completion hands over to the mentioned agent iff chaining is on and not dry, the agent is in the workspace, depth, daily limit and budget allow it, none of its runs waits on the issue, and unless it is the main agent it had no run in the chain |
| `QueueTables.EveryNewIssue` | internal/store/issues.go:75-100 | an issue appears exactly by its creation, open and in its workspace, and never moves |
| `QueueTables.EverySetting` | internal/store/workspace.go:16-34 | workspaces change only by storing one, with clamped limits; agents, policies and webhooks only by their own steps |
| `QueueTables.RetryIsDueAsScheduled` | internal/store/cancellation.go:361-379 | only its own finish requeues a run; it is due exactly the policy's wait after that step, and the last log row records the same wait |
| `QueueTables.NoClaimBeforeDue` | internal/store/runs.go:125-141 | over every history no claim takes a retried attempt before the policy's wait is over |
| `QueueLogs.EveryLog` | internal/store/runs.go:380-417 | in every step of every history the log of a run grows by exactly the listed rows |
| `QueueLogs.EveryFirstLog` | internal/store/auto_chain.go:129-144 | a new run's log starts with one queue event, none if an autopilot rule inserted it |
| `QueueOutcomes.FinishOfOwnRun` | internal/app/worker_store.go:137-197 | what a report makes of its run's row: done iff clean, requeued iff a retry is granted and no queued sibling is in the way, otherwise failed |
| `QueueOutcomes.FinishBrings` | internal/store/runs.go:231-248 | a finish dispatches a child with the parent's issue and chain iff the guards, asked before it, find a target, and closes the issue iff the workspace does so and no child was dispatched |
| `QueueLifecycle.FinishedForGood` | internal/store/runs.go:355-361 | done, failed and cancelled are absorbing: the row never changes again and its id never comes back |
| `QueueLifecycle.LifeIsFinite` | internal/store/cancellation.go:363-379 | a run changes status at most twice per allowed attempt and never more than ten times |
| `QueueLifecycle.AttemptAccounting` | internal/store/cancellation.go:344-413 | attempt = 1 + scheduled retries; claims = attempt while running and attempt - 1 while queued; at most 5 claims and 14400 s of scheduled waiting |
| `QueueLifecycle.OneEndMark` | internal/store/run_events.go:96-131 | a run has exactly one terminal event iff it is finished, and its events are numbered exactly 1..n |
| `QueueLifecycle.LateFinishIsHarmless` | internal/store/runs.go:219-230 | a finish after the run has ended changes no run, issue, delivery or counter |
| `QueueLifecycle.FinishLeavesRunning` | internal/app/worker_store.go:166-180 | a finish leaves its run running iff the failure is retryable and the agent has another queued run on the issue |
| `QueueWitness.TimedOutRunStaysRunning` | internal/store/cancellation.go:363-383 | a history of six steps after which a timed-out run with an attempt left is still running |
| `QueueWitness.WitnessIsHistory` | internal/store/cancellation.go:344-413 | that history is a run of the machine from the empty database |
| `QueueChains.DepthCountsDispatches` | internal/store/auto_chain.go:119-128 | chain depth equals the number of dispatches to non-main agents on the parent path |
| `QueueChains.DepthWithinWorkers` | internal/store/auto_chain.go:149-172 | chain depth is at most the number of non-main agents of the workspace |
| `QueueChains.ChainTheorem` | internal/store/auto_chain.go:99-172 | in every reachable state: depth counts dispatches, a chain lies on one issue, an agent is dispatched at most once per chain, depth is within the agents |
| `QueueChains.DepthLimit` | internal/store/auto_chain.go:78-91 | no run is deeper than the largest depth limit in force, and never deeper than 20 |
| `QueueChains.DailyRunLimit` | internal/store/auto_chain.go:179-189 | for an unchanged limit, every 24-hour window holds at most that many dispatched runs, also when chain retries add rows |
| `QueueExclusion.OneRunningRunPerIssue` | internal/store/runs.go:125-141 | never two running runs on one issue |
| `QueueExclusion.SerialWorkspace` | internal/store/workspace.go:196-200 | without per-run worktrees a workspace runs at most one run, or no more than when the flag was switched off |
| `QueueExclusion.NextRunExists` | internal/store/runs.go:125-141 | nothing is claimed exactly when no run is eligible, and what is claimed is a first one |
| `QueueExclusion.ClaimQuery` | internal/store/runs.go:125-141 | on the columns: the claimed run is queued, due, alone on its issue and, in a serial workspace, in the workspace, and was enqueued before every other such run, the smaller id deciding; nothing is claimed iff there is none |
| `QueueExclusion.NoOvertaking` | internal/store/runs.go:125-141 | in a serial workspace the claimed run was enqueued before any due run that waits there, or at the same time with a smaller id |
| `QueueExclusion.PlaceIsKept` | internal/store/cancellation.go:363-379 | a run keeps its enqueue time, agent, chain and depth through every later transaction, retries included |
| `QueueExclusion.CancelledIssueIsIdle` | internal/store/issues.go:253-301 | a cancelled issue has no queued or running run |
| `QueueExclusion.DoneIssueIsIdle` | internal/store/issues.go:244-252 | where auto-close was never on, a done issue has no queued or running run |
| `QueueWebhooks.FanOutCount` | internal/store/webhooks.go:145-182 | a fan-out holds one row for each enabled webhook of the workspace whose filter is empty or lists the event, none for any other |
| `QueueWebhooks.DeliveriesMatchFinishedRuns` | internal/store/runs.go:249-271 | while a webhook stays subscribed, its run.completed and run.failed rows grow by exactly the runs that became done and failed, by either terminal path |
| `QueueWebhooks.DeliveredForGood` | internal/store/webhooks.go:271-284 | a delivery is never dropped or redirected, and a delivered one never changes |
| `QueueWebhooks.DeliveryAttempts` | internal/store/webhooks.go:292-358 | a pending delivery has attempts left; a dead letter has used exactly all |
| `QueueWebhooks.EveryDelivery` | internal/store/webhooks.go:271-358 | for every delivery in every step of every history: successes and failures count for a pending one, the last failure ends it, only a dead letter starts again, and a new one is pending and untried |
| `QueueAnnouncements.DeliveriesMatchClosedIssues` | internal/store/issues.go:313-354 | while a webhook stays subscribed, its issue.cancelled rows grow by one per issue a user cancels and its issue.done rows by one per issue a completion closes |
| `RunStore.RetireOneMore` | internal/store/cancellation.go:191-223 | a loop that ends rows one by one adds up to ending the whole selection |
| `RunStore.Store.AppendRunEvent` | internal/store/run_events.go:96-142 | the new row is numbered one past the largest of its run; an unknown run or another issue's is refused and nothing changes |
| `RunStore.Store.EndRun` | internal/store/runs.go:355-361 | the guarded update ends the run and logs it, or finds nothing and does nothing |
| `RunStore.Store.EndAll` | internal/store/cancellation.go:191-223 | the loop over selected rows ends exactly those the guard finds and counts them |
| `RunStore.Store.EnqueueWebhookDeliveries` | internal/store/webhooks.go:145-182 | the loop appends exactly the fan-out and returns its size |
| `RunStore.Store.NextEligible` | internal/store/runs.go:125-141 | a scan of the table returns the ready run enqueued first, the smaller id deciding, or none iff no run is ready |
| `RunStore.Store.ClaimNextRun` | internal/store/runs.go:112-180 | one claim step of the machine; returns the claimed run |
| `RunStore.Store.CancelRunWithReason` | internal/store/cancellation.go:109-152 | one cancel step; not found, wrong state or done |
| `RunStore.Store.CancelRunsByChain` | internal/store/cancellation.go:163-231 | cancels every active run of the chain, counts them and skips finished ones |
| `RunStore.Store.RecoverStaleRuns` | internal/store/cancellation.go:302-341 | cancels those of an earlier selection that are still running |
| `RunStore.Store.SelectStale` | internal/store/cancellation.go:284-302 | selects exactly the running runs without a recent heartbeat that this pool does not execute |
| `RunStore.Store.RecoverOrphanRuns` | internal/store/cancellation.go:233-278 | at start-up every running run is cancelled and counted, and none is left |
| `RunStore.Store.FailInfrastructureRun` | internal/store/runs.go:456-517 | one step: fails an active run and notifies, leaves a finished one alone |
| `RunStore.Store.RescheduleRunForRetry` | internal/store/cancellation.go:344-413 | requeues a running run with its wait, or refuses with the right error and changes nothing |
| `RunStore.Store.DispatchAutoChain` | internal/store/auto_chain.go:21-172 | the guards in order; inserts the child row iff all let it through |
| `RunStore.Store.CompleteRunWithReason` | internal/store/runs.go:208-271 | completes only a running run, with chaining, auto-close and notifications |
| `RunStore.Store.FinishRun` | internal/app/worker_store.go:137-197 | one finish step: cancel, retry or completion; reports an unknown run or the refusal of a retry, never that the run had ended |
| `RunStore.Store.CreateIssueWithInitialRun` | internal/store/issues.go:38-130 | one step: a new issue with its first queued run |
| `RunStore.Store.AddUserComment` | internal/store/comments.go:35-107 | one step: a mention enqueues the agent and reopens the issue, unless it is unknown or already queued |
| `RunStore.Store.RerunIssue` | internal/store/issues.go:380-446 | an active issue is refused; otherwise one rerun step by the chosen agent or by that of the latest run, refused exactly if there is none in the workspace |
| `RunStore.Store.RetryFailedRunInChain` | internal/store/chain_retry.go:17-82 | a chain with an active run is refused, one without a failed run is not found; otherwise one retry step of the most recently failed run |
| `RunStore.Store.UpdateIssue` | internal/store/issues.go:237-306 | one step: refuses to close an active issue; cancelling cancels the queued runs one by one |
| `RunStore.Store.DeleteIssue` | internal/store/issues.go:356-378 | one step: an idle issue goes with its runs and events |
| `RunStore.Store.HeartbeatRun` | internal/store/cancellation.go:40-50 | one step: touches a running run's heartbeat only; a state error if there is none |
| `RunStore.Store.MarkWebhookDeliveryDelivered` | internal/store/webhooks.go:271-284 | one step: only a pending delivery is delivered |
| `RunStore.Store.MarkWebhookDeliveryFailure` | internal/store/webhooks.go:292-313 | one step: counts the attempt and ends at the last one |
| `RunStore.Store.ResubmitWebhookDelivery` | internal/store/webhooks.go:326-358 | one step: only a dead letter starts again |
| `Worktrees.UnprotectedForGood` | internal/store/runs.go:98-110 | an id that was handed out and is not protected is never protected again |
| `Worktrees.PruneSlug` | internal/app/maintenance.go:267-304 | removes the old unprotected directories of a workspace in order and counts the failures; each removal is safe |
| `Worktrees.PruneStaleWorktrees` | internal/app/maintenance.go:249-307 | at the moment of each removal the run is neither queued nor running, whatever committed since its directory was made, listed and checked; the errors are counted |
| `Worktrees.SweptAllIff` | internal/app/maintenance.go:249-307 | the sweep takes exactly the old directories it can read whose run is over when checked and on which no call fails |
| `CancelRegistry.Pool.CancelRun` | internal/worker/pool.go:242-253 | cancels a live context, or leaves a cancel waiting |
| `CancelRegistry.Pool.ForgetPendingCancel` | internal/worker/pool.go:255-266 | drops a waiting cancel unless the run is live |
| `CancelRegistry.Pool.RegisterRun` | internal/worker/pool.go:408-421 | a new context takes a waiting cancel over |
| `CancelRegistry.Pool.DeregisterRun` | internal/worker/pool.go:375-381 | the run leaves all three tables |
| `CancelRegistry.Pool.MarkHeartbeatOK` | internal/worker/pool.go:469-476 | a heartbeat counts only for a live run |
| `CancelRegistry.Pool.ActiveRunIDs` | internal/worker/pool.go:316-324 | every live run exactly once |
| `CancelRegistry.Pool.CancelStaleActiveRuns` | internal/worker/pool.go:326-352 | every registered run silent for at least staleAfter has its context cancelled; every newly cancelled context belongs to such a run and is marked stale; earlier causes stay |
| `CancelRegistry.Pool.Shutdown` | internal/worker/pool.go:213-226 | cancels every live context and drops every waiting cancel |
| `CancelHandoff.RunOK` | internal/worker/pool.go:369-421 | in every interleaving, live contexts and waiting cancels are disjoint and heartbeats belong to live contexts |
| `CancelHandoff.PendingStaysOrSpent` | internal/httpapi/handlers_issue.go:109-147 | a waiting cancel is only lost to a registration, to shutdown, or when no worker can get the run any more |
| `CancelHandoff.RegistrationSeesCancel` | internal/worker/pool.go:397-421 | a registration after an unanswered request finds the cancel iff no retry was scheduled and no shutdown began in between |
| `CancelHandoff.PendingCancelFires` | internal/worker/pool.go:397-421 | a cancel found at registration has cancelled the context before the execution starts |
| `CancelHandoff.PromptCancelReachesEveryExecution` | internal/httpapi/handlers_issue.go:109-128 | if the transaction that ends the run commits within a second of the unanswered request, every execution registered later starts cancelled, unless the pool begins to shut down before it is registered |
| `CancelHandoff.CancelEnds` | internal/httpapi/handlers_run.go:242-263 | a handler's cancel and the sweep of a chain cancel are such transactions |
| `CancelHandoff.SlowCancelMissesExecution` | internal/store/cancellation.go:361-379 | for every gap of a second or more some interleaving has a later execution that starts uncancelled |
| `CancelHandoff.StepDooms` | internal/worker/pool.go:213-352 | a live context is picked for cancelling exactly by a request for its run, a scan that finds it silent for at least the limit, or the shutdown |
| `CancelHandoff.AnsweringExecutionIsSpared` | internal/worker/pool.go:326-352 | an execution whose last heartbeat is younger than the limit at every scan, with no request and no shutdown, is never picked |
| `CancelHandoff.SilentExecutionIsDoomed` | internal/worker/pool.go:336-347 | a scan picks a live run that has been silent for the limit |
| `CancelHandoff.RunningRowHasWorker` | internal/worker/pool.go:354-448 | in every interleaving a running row is in a worker's hands, unless a worker left it to a refused retry |
| `CancelHandoff.WaitingCancelIsCaredFor` | internal/httpapi/handlers_issue.go:119-147 | without a chain cancel, once no handler deals with a run, a cancel still waiting for it belongs to a run that was claimed and is over, or is deleted |
| `HandoffRows.QueueMovesRows` | internal/store/runs.go:355-361 | every queue transaction moves a row the way the hand-off's steps do |
| `HandoffRows.QueueKeepsTime` | internal/store/runs.go:118-141 | a claim takes only a row that is due, and a scheduled retry is due a second later at the earliest |
| `OutputCapture.TailOfTail` | internal/worker/ring.go:18-43 | keeping a tail and appending gives the tail of everything |
| `OutputCapture.RingBuffer.Write` | internal/worker/ring.go:18-30 | after any writes the ring holds the last N bytes ever written |
| `OutputCapture.RingBuffer.Bytes` | internal/worker/ring.go:32-43 | returns the last min(N, total) bytes ever written |
| `OutputCapture.CopyWithCapAndDrain` | internal/worker/executor.go:302-348 | for every chunking: the first min(cap, total) bytes, the marker once iff there was more, as far as the sink has room; the exact counts and error; what is left in the source, and that it is drained iff the sink does not stall before the last chunk |
| `OutputCapture.ReadCountIsLeast` | internal/worker/executor.go:308-347 | the chunks read end with the least one on which the sink stalls, or are all of them |
| `OutputCapture.DrainedIff` | internal/worker/executor.go:299-301 | the source is drained iff the sink does not stall before the last chunk |
| `OutputCapture.FullSinkLeavesTheRest` | internal/worker/executor.go:319-326 | a full sink and three chunks: two stay in the source |
| `Utf8.BoundaryIff` | internal/store/store.go:135-139 | in valid text the boundaries are exactly the positions whose byte starts a character |
| `Utf8.RuneIsEncoded` | internal/store/store.go:131-139 | every well-formed sequence is the encoding of a character that is no surrogate |
| `Utf8.EncodedIsRune` | internal/store/store.go:131-139 | the encoding of every character is well formed, whatever follows |
| `Utf8.EncodedIsValid` | internal/worker/executor.go:381 | the encoding of any sequence of characters is valid text |
| `Utf8.ValidIsEncoded` | internal/worker/executor.go:381 | all valid text is the encoding of a sequence of characters |
| `Utf8.LongestIsLongest` | internal/worker/executor.go:373-385 | the specification of cutting is valid, fits, and no longer valid prefix fits |
| `Utf8.RepairedIsValid` | internal/store/store.go:131 | repairing any bytes yields valid text |
| `Utf8.RepairKeeps` | internal/store/store.go:131 | a well-formed beginning is kept byte for byte |
| `Utf8.RepairMarks` | internal/store/store.go:131 | a run of malformed bytes becomes exactly one replacement character |
| `Utf8.SafeUTF8Cap` | internal/store/store.go:127-140 | the longest fitting boundary prefix of the repaired text, which is the text itself when valid |
| `Utf8.FirstUTF8Bytes` | internal/worker/executor.go:373-385 | the longest fitting boundary prefix |
| `Utf8.Utf8SafePrefix` | internal/store/run_events.go:198-213 | the longest fitting boundary prefix of valid text |
| `EventDetails.EscapeGrows` | internal/store/run_events.go:181-186 | a longer preview never encodes shorter |
| `EventDetails.EscapedStringReads` | internal/store/run_events.go:181-186 | a JSON string reader gets back exactly the text the encoder wrote and stops at the closing quote |
| `EventDetails.EnvelopeReads` | internal/store/run_events.go:215-223 | reading an envelope back gives the mark, the size and the preview |
| `EventDetails.MarshalTruncatedRunEventDetails` | internal/store/run_events.go:161-196 | the envelope fits the cap, reads back as truncated with the original size and the preview, and its preview is the longest boundary prefix for which it fits |
| `CodeFences.RenderParse` | internal/worker/mention.go:53-86 | the structure found in a comment spells the comment |
| `CodeFences.StripCodeFences` | internal/worker/mention.go:53-86 | the scan yields the same structure with blank bodies |
| `CodeFences.StrippingBlanksBodies` | internal/worker/mention.go:53-86 | length is kept; exactly the bodies of fenced blocks and closed spans become spaces |
| `CodeFences.ParseRender` | internal/worker/mention.go:53-86 | only one structure spells a given comment |
| `CodeFences.StrippingIsIdempotent` | internal/worker/mention.go:53-86 | stripping twice is stripping once, for every input |
| `CodeFences.PlainIsKept` | internal/worker/mention.go:82-83 | text before the first backtick stays |
| `CodeFences.FencedBlockIsBlanked` | internal/worker/mention.go:58-69 | a closed fenced block keeps its fences and loses its body, whatever follows |
| `CodeFences.OpenFenceIsBlanked` | internal/worker/mention.go:61-64 | a fence that is never closed blanks everything after it |
| `CodeFences.InlineSpanIsBlanked` | internal/worker/mention.go:70-80 | a closed inline span keeps its backticks and loses its body |
| `CodeFences.OpenTickIsKept` | internal/worker/mention.go:73-76 | a backtick that is never closed hides nothing |
| `Sse.DispatchSSEBlock` | web/src/api/client.ts:119-139 | a block dispatches its last event name and its joined data lines, or nothing without data |
| `Sse.DrainSSEBuffer` | web/src/api/client.ts:141-152 | dispatches every complete block and returns the rest |
| `Sse.FlushSSEBuffer` | web/src/api/client.ts:154-159 | the rest is a block of its own unless blank |
| `Sse.NormalizedConcat` | web/src/api/client.ts:142 | normalizing piecewise equals normalizing the whole iff no CR LF pair is cut |
| `Sse.BlocksConcat` | web/src/api/client.ts:141-152 | the carried remainder is all the parser needs of the past |
| `Sse.SplitIndependence` | web/src/api/client.ts:195-204 | parsing chunk by chunk is parsing the whole stream whenever no cut goes through a CR LF pair |
| `Sse.ContinuationIff` | web/src/api/client.ts:195-204 | what has been read is safe for every continuation iff it was read right and does not end with a carriage return |
| `Sse.TwoPieces` | web/src/api/client.ts:195-204 | cutting after a text is safe for every continuation iff the text does not end with a carriage return |
| `Sse.SplitIndependenceIff` | web/src/api/client.ts:195-204 | after each of a list of chunks the parser is right for every continuation iff no chunk ends the text so far with a carriage return |
| `Sse.CutPairDispatchesEarly` | web/src/api/client.ts:141-152 | any line cut inside its CR LF is dispatched before its block is complete |
| `Sse.WriteFrame` | internal/httpapi/handlers_run.go:353-361 | the frame is the event line, one data line per text line and an empty line |
| `Sse.FrameRoundTrip` | internal/httpapi/handlers_run.go:185-193 | a frame is read back exactly iff its text has no carriage return |
| `Sse.LogRoundTrip` | internal/httpapi/handlers_run.go:353-361 | a log piece arrives as its text without exactly its trailing line feeds, iff it has no carriage return |
| `Sse.StreamRoundTrip` | internal/httpapi/handlers_run.go:177-197 | any chunking of the server's frames yields exactly the framed events and leaves nothing |
| `Sse.CommentsAreIgnored` | web/src/api/client.ts:124-126 | comment lines change nothing |
| `Sse.LoneDataLine` | web/src/api/client.ts:131-134 | a data line alone is a message, without one space after the colon |
| `Sse.LastNameWins` | web/src/api/client.ts:127-130 | the last event line names the event, and a block without data is not dispatched |
| `Sse.FlushDelivers` | web/src/api/client.ts:154-159 | a stream that ends before the empty line of its last frame still delivers it |
| `Decimal.ParsePrint` | internal/store/issues.go:82 | reading a printed number gives the number |
| `Identifiers.IdentifierSuffix` | internal/app/workspace_io.go:746-759 | the number after the last dash in 64-bit arithmetic, 0 if there is none |
| `Identifiers.SuffixInvertsName` | internal/app/workspace_io.go:746-759 | the suffix inverts the printer for every prefix and machine integer |
| `Identifiers.IssueTable.NewIssue` | internal/store/issues.go:75-82 | takes the counter's identifier, or conflicts and rolls the counter back |
| `Identifiers.IssueTable.RestoreHistory` | internal/app/workspace_io.go:597-626 | inserts up to the first row the table refuses, as a duplicate or by its checks; moves the counter only after the last row |
| `Identifiers.IssueTable.DeleteIssue` | internal/store/issues.go:356-378 | frees the identifier and leaves the counter |
| `Identifiers.AllocateKeepsBehind` | internal/store/autopilot.go:311-319 | allocation behind the counter succeeds and stays behind it |
| `Identifiers.AllocationsAreFresh` | internal/app/workspace_io.go:597-626 | over all creations, triggers, deletions and completed restores no allocation meets a taken identifier |
| `Identifiers.FailedRestore` | internal/app/workspace_io.go:609-617 | after a restore that stops at any refused row, numbering is safe iff no inserted identifier is ahead of the counter |
| `Identifiers.BlockedUntilFreed` | internal/store/issues.go:75-95 | over every history a counter that points at a taken identifier stays blocked exactly until that identifier is deleted or the counter moves |
| `Identifiers.BlockedMeansConflict` | internal/store/issues.go:75-95 | creation conflicts exactly when the counter points at a taken identifier |
| `Identifiers.DuplicateExportBlocks` | internal/app/workspace_io.go:597-626 | an export that lists an identifier twice blocks a new workspace's first creation until that issue is deleted |

## Left out

- SQL, HTTP routing, authentication, cron parsing, templates, PII masking, backups, processes and git commands: foreign calls.
- Comment rows, titles, token counts and other columns that no modelled decision reads.
- Timestamps are integers; the program compares RFC 3339 strings that drop trailing zeros.
- The daily cost guard is the parameter `overBudget` of a finish, because the cost columns are not modelled.
- Mention extraction is a parameter (`mention`); only the code-fence blanking in front of it is modelled.
- Promoting, demoting and deleting agents, and deleting workspaces and webhooks; the main agent of the model is fixed.
- History import into the queue: it appears only in the identifier model.
- The fallback for rows with an empty `chain_id` (internal/store/auto_chain.go:100-103): modelled rows always have one.
- The checks in front of a rerun and of a chain retry are separate statements; the machine's steps are the transactions alone, so that they hold whatever the checks saw.
- RunStore.Store.DispatchAutoChain: the daily cost guard and the lookup of the mentioned name are parameters.
- RunStore.Store.CreateIssueWithInitialRun: the check of a parent issue is not modelled; the identifier counter has its own model.
- QueueWebhooks.DeliveredForGood: deleting a webhook, which removes its deliveries, is not a step of the machine.
- CancelRegistry.Pool.Shutdown: cancelling the root context and waiting are not part of it; the former is a step of the hand-off.
- CancelHandoff.PromptCancelReachesEveryExecution: a shutdown drops waiting cancels before it cancels the root context, so an execution registered in between starts uncancelled.
- RecoverOrphanRuns: its selection and its unguarded update are one step at start-up, before any worker runs.
- SelectStale: does not model the order of the selection, which the loop after it does not depend on.
- The panic counter and cool-down of the pool; a panic itself is a step of the hand-off.
- A cancel that reaches a worker between the end of its execution and its deregistration: the registry reports it as delivered.
- Termination of auto-chains through the main agent, whose re-entries add no depth.
- SafeUTF8Cap, Utf8SafePrefix, MarshalTruncatedRunEventDetails: text is a sequence of bytes; JSON decoding is not modelled.
- The stream's byte decoder: the parser is modelled on characters.
- IdentifierSuffix: characters stand for the program's runes; only ASCII digits count, as there.
