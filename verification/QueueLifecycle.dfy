/** Properties of the life of a run over every history of the queue. */
module QueueLifecycle {
  import opened Common
  import opened RetryPolicies
  import opened RunQueue
  import opened QueueInvariant
  import opened QueueEvolution

  lemma HistoryEvolves(dbs: seq<DB>, steps: seq<Step>, i: nat)
    requires IsHistory(dbs, steps) && i < |steps|
    ensures Inv(dbs[i]) && Inv(dbs[i + 1]) && Evolves(dbs[i], dbs[i + 1])
    ensures !steps[i].StClaim? ==> NoneStarts(dbs[i].runs, dbs[i + 1].runs)
  {
    hide Inv, Evolves, NoneStarts, Apply;
    HistoryInv(dbs, steps, i);
    HistoryInv(dbs, steps, i + 1);
    StepEvolves(dbs[i], steps[i]);
  }

  // ---------------------------------------------------------------- finished runs

  /** The row `id` of `db` is gone for good or is exactly `r`. */
  ghost predicate GoneOrSame(db: DB, id: Id, r: Life) {
    id in db.issued && (id in db.runs ==> db.runs[id] == r)
  }

  lemma StaysGoneOrSame(db: DB, db': DB, id: Id, r: Life)
    requires Evolves(db, db') && GoneOrSame(db, id, r) && !IsActive(r.status)
    ensures GoneOrSame(db', id, r)
  {
    if id in db'.runs && id in db.runs {
      assert Moves(db.runs[id], db'.runs[id]);
    }
  }

  /** `done`, `failed` and `cancelled` are absorbing: a finished row is never changed again, and its id never comes back. */
  lemma {:induction false} FinishedForGood(dbs: seq<DB>, steps: seq<Step>, i: nat, j: nat, id: Id)
    requires IsHistory(dbs, steps) && i <= j < |dbs|
    requires id in dbs[i].runs && !IsActive(dbs[i].runs[id].status)
    ensures id in dbs[j].issued && (id in dbs[j].runs ==> dbs[j].runs[id] == dbs[i].runs[id])
    decreases j
  {
    hide Evolves, Apply;
    if i == j {
      HistoryInv(dbs, steps, i);
    } else {
      FinishedForGood(dbs, steps, i, j - 1, id);
      HistoryEvolves(dbs, steps, j - 1);
      StaysGoneOrSame(dbs[j - 1], dbs[j], id, dbs[i].runs[id]);
    }
  }

  // ---------------------------------------------------------------- a run's life is finite

  function Rank(s: Status): nat { if s == Queued then 2 else if s == Running then 1 else 0 }

  /** Status changes a run may still make. */
  function Budget(maxAttempts: int, r: Life): int { 2 * (maxAttempts - r.attempt) + Rank(r.status) }

  ghost predicate Changes(db: DB, db': DB, id: Id) {
    id in db.runs && id in db'.runs && db.runs[id].status != db'.runs[id].status
  }

  /** How often the status of `id` changed in the first `n` steps. */
  ghost function ChangeCount(dbs: seq<DB>, id: Id, n: nat): nat
    requires n < |dbs|
  {
    if n == 0 then 0 else ChangeCount(dbs, id, n - 1) + Count(Changes(dbs[n - 1], dbs[n], id))
  }

  ghost predicate WithinBudget(db: DB, id: Id, changes: nat) {
    && (id !in db.issued ==> changes == 0)
    && changes <= 2 * MAX_RETRY_ATTEMPTS
    && (Has(db, id) ==> changes + Budget(db.origins[id].maxAttempts, db.runs[id]) <= 2 * db.origins[id].maxAttempts)
  }

  lemma BudgetStep(db: DB, db': DB, id: Id, changes: nat)
    requires Inv(db) && Inv(db') && Evolves(db, db') && WithinBudget(db, id, changes)
    ensures WithinBudget(db', id, changes + Count(Changes(db, db', id)))
  {
    hide RowOK, GraphOK, ExclusionOK, SettingsOK;
    if id in db'.runs {
      RowAt(db', id);
      RowBounds(db'.origins[id].maxAttempts, db'.runs[id], db'.events[id]);
      if id in db.runs {
        assert Moves(db.runs[id], db'.runs[id]);
      }
    }
  }

  lemma RowBounds(m: int, r: Life, es: seq<Event>)
    requires RowOK(m, r, es)
    ensures 1 <= r.attempt <= m <= MAX_RETRY_ATTEMPTS
  {
  }

  /** In any history a run changes its status at most twice per allowed attempt, and never more than ten times. */
  lemma {:induction false} LifeIsFinite(dbs: seq<DB>, steps: seq<Step>, n: nat, id: Id)
    requires IsHistory(dbs, steps) && n < |dbs|
    ensures ChangeCount(dbs, id, n) <= 2 * MAX_RETRY_ATTEMPTS
    ensures Has(dbs[n], id) ==> ChangeCount(dbs, id, n) <= 2 * dbs[n].origins[id].maxAttempts
    ensures WithinBudget(dbs[n], id, ChangeCount(dbs, id, n))
  {
    hide Apply, Evolves, Changes, WithinBudget;
    if n == 0 {
      EmptyBudget(dbs[0], id);
      BudgetMeaning(dbs[0], id, 0);
    } else {
      LifeIsFinite(dbs, steps, n - 1, id);
      HistoryEvolves(dbs, steps, n - 1);
      BudgetStep(dbs[n - 1], dbs[n], id, ChangeCount(dbs, id, n - 1));
      BudgetMeaning(dbs[n], id, ChangeCount(dbs, id, n));
    }
  }

  lemma EmptyBudget(db: DB, id: Id)
    requires db.runs == map[] && db.issued == {}
    ensures WithinBudget(db, id, 0)
  {
  }

  lemma BudgetMeaning(db: DB, id: Id, changes: nat)
    requires WithinBudget(db, id, changes) && (db.runs == map[] || Inv(db))
    ensures changes <= 2 * MAX_RETRY_ATTEMPTS
    ensures Has(db, id) ==> changes <= 2 * db.origins[id].maxAttempts
  {
    hide RowOK, GraphOK, ExclusionOK, SettingsOK;
    if Has(db, id) {
      RowAt(db, id);
      RowBounds(db.origins[id].maxAttempts, db.runs[id], db.events[id]);
    }
  }

  // ---------------------------------------------------------------- attempts, claims and backoff

  /**
   Attempt accounting in every reachable state: the attempt counter is one more than the scheduled retries,
   a running run has been claimed once per attempt and a queued one once less, so no run is ever claimed more
   than its maximum, which is at most five, and its scheduled waits add up to at most an hour per retry.
   */
  lemma AttemptAccounting(dbs: seq<DB>, steps: seq<Step>, i: nat, id: Id)
    requires IsHistory(dbs, steps) && i < |dbs| && Has(dbs[i], id)
    ensures id in dbs[i].events
    ensures var o, r, t := dbs[i].origins[id], dbs[i].runs[id], TallyOf(dbs[i].events[id]);
            && r.attempt == 1 + t.retries
            && (r.status == Running ==> t.claims == r.attempt)
            && (r.status == Queued ==> t.claims == r.attempt - 1)
            && t.claims <= r.attempt <= o.maxAttempts <= 5
            && t.retries <= t.backoff <= (o.maxAttempts - 1) * 3600 <= 14400
  {
    hide Apply, GraphOK, ExclusionOK, SettingsOK;
    HistoryInv(dbs, steps, i);
    RowAt(dbs[i], id);
    RowTally(dbs[i].origins[id].maxAttempts, dbs[i].runs[id], dbs[i].events[id]);
  }

  lemma RowTally(m: int, r: Life, es: seq<Event>)
    requires RowOK(m, r, es)
    ensures var t := TallyOf(es);
            && r.attempt == 1 + t.retries
            && (r.status == Running ==> t.claims == r.attempt)
            && (r.status == Queued ==> t.claims == r.attempt - 1)
            && t.claims <= r.attempt <= m <= 5
            && t.retries <= t.backoff <= (m - 1) * 3600 <= 14400
  {
  }

  /** A run has exactly one end mark if it is finished and none otherwise, and its log rows are numbered 1..n. */
  lemma OneEndMark(dbs: seq<DB>, steps: seq<Step>, i: nat, id: Id)
    requires IsHistory(dbs, steps) && i < |dbs| && Has(dbs[i], id)
    ensures id in dbs[i].events
    ensures TallyOf(dbs[i].events[id]).ends == if IsActive(dbs[i].runs[id].status) then 0 else 1
    ensures forall k :: 0 <= k < |dbs[i].events[id]| ==> dbs[i].events[id][k].seqNo == k + 1
  {
    hide Apply, GraphOK, ExclusionOK, SettingsOK;
    HistoryInv(dbs, steps, i);
    RowAt(dbs[i], id);
  }

  // ---------------------------------------------------------------- late and blocked finishes

  /** A finish that comes after the run has ended writes log notes at most: no row, issue or delivery changes. */
  lemma LateFinishIsHarmless(db: DB, id: Id, x: Execution, now: int, newId: Id)
    requires Has(db, id) && !IsActive(db.runs[id].status)
    ensures FinishRun(db, id, x, now, newId) == db.(events := FinishRun(db, id, x, now, newId).events)
  {
    hide FinishDone, QueuedClash, ValidPolicy, ShouldRetry;
    if x.cancelled {
    } else if x.sanitized {
      NothingToFinish(Note(db, id, EvStdoutSanitized), id, x, now, newId);
    } else {
      NothingToFinish(db, id, x, now, newId);
    }
  }

  /** Without a running run there is nothing to retry or complete. */
  lemma NothingToFinish(db: DB, id: Id, x: Execution, now: int, newId: Id)
    requires !Has(db, id) || db.runs[id].status != Running
    ensures RetryOrComplete(db, id, x, now, newId) == db
  {
    hide FinishDone, QueuedClash, ValidPolicy, ShouldRetry, BackoffSeconds;
    if WantsRetry(x) && RescheduleRunForRetry(db, id, KindOf(ReasonOf(x)), now).error != StateError {
    } else {
    }
  }

  /** The execution ended in a failure that the agent's policy retries, and attempts are left. */
  ghost predicate Retryable(db: DB, id: Id, x: Execution)
    requires Has(db, id)
  {
    && !x.cancelled && WantsRetry(x) && db.origins[id].agent in db.policies
    && ShouldRetry(KindOf(ReasonOf(x)), db.runs[id].attempt, db.origins[id].maxAttempts, db.policies[db.origins[id].agent])
  }

  /**
   A finish ends or requeues the run except in one case: a retryable failure while the same agent already has
   another queued run on the issue. The queued-row index then refuses the retry and the run stays `running`.
   */
  lemma FinishLeavesRunning(db: DB, id: Id, x: Execution, now: int, newId: Id)
    requires Inv(db) && Has(db, id) && db.runs[id].status == Running && newId !in db.issued
    ensures id in FinishRun(db, id, x, now, newId).runs
    ensures FinishRun(db, id, x, now, newId).runs[id].status == Running
            <==> Retryable(db, id, x) && QueuedClash(db.origins, db.runs, db.origins[id].issue, db.origins[id].agent)
  {
    hide GraphOK, LivesOK, DeliveriesOK, HomesOK, QueuedClash, ShouldRetry, BackoffSeconds, FinishDone, RetireLogs, FanOut;
    AgentHasPolicy(db, id);
    var noted := if x.sanitized then Note(db, id, EvStdoutSanitized) else db;
    if x.cancelled {
    } else if Retryable(db, id, x) {
      if QueuedClash(db.origins, db.runs, db.origins[id].issue, db.origins[id].agent) {
      } else {
      }
    } else {
      CompleteEnds(noted, id, InputOf(x), now, newId);
    }
  }

  lemma AgentHasPolicy(db: DB, id: Id)
    requires Inv(db) && Has(db, id)
    ensures db.origins[id].agent in db.policies && ValidPolicy(db.policies[db.origins[id].agent])
  {
    hide LivesOK, LinksOK, DispatchedOnce, ValidPolicy;
    assert OriginRefs(db.origins[id], db.homes, db.agents, db.stamp);
  }

  lemma FinishDoneEnds(db: DB, id: Id, f: FinishInput, now: int, newId: Id)
    requires Has(db, id) && db.runs[id].status == Running && newId != id
    ensures var db' := FinishDone(db, id, f, now, newId);
            id in db'.runs && db'.runs[id] == db.runs[id].(status := Done, finishedAt := Some(now))
  {
    hide RetireLogs, FanOut, ChainTarget, AppendEvent, AutoCloses;
    var o := db.origins[id];
    var done := Retire(db, {id}, Done, EvCompleted, now);
    var chained := DispatchAutoChain(done, id, o, f, now, newId);
    assert id in chained.runs && chained.runs[id] == db.runs[id].(status := Done, finishedAt := Some(now));
    if ChainTarget(done, o, f, now).None? && AutoCloses(db, o.issue) {
    } else {
    }
  }

  lemma CompleteEnds(db: DB, id: Id, f: FinishInput, now: int, newId: Id)
    requires Has(db, id) && db.runs[id].status == Running && newId != id
    ensures var db' := Settle(db, CompleteRunWithReason(db, id, f, now, newId));
            id in db'.runs && db'.runs[id] == db.runs[id].(status := FinishStatus(f), finishedAt := Some(now))
  {
    hide RetireLogs, FanOut, AppendEvent, FinishDone;
    var noted := if f.stdoutTruncated then WriteLog(db, id, EvStdoutTruncated) else db;
    if FinishStatus(f) == Done {
      FinishDoneEnds(noted, id, f, now, newId);
    } else {
      if db.origins[id].issue in noted.homes {}
    }
  }
}
