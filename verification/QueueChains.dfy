/** Chains of runs: depth, single dispatch, one issue per chain and the daily run limit. */
module QueueChains {
  import opened Common
  import opened RunQueue
  import opened QueueInvariant
  import opened QueueEvolution
  import opened QueueInsertion
  import opened QueueLifecycle

  // ---------------------------------------------------------------- depth

  /** The run and everything above it on its parent path. */
  ghost function Ancestry(origins: map<Id, Origin>, agents: map<Id, Agent>, id: Id): set<Id>
    requires LinksOK(origins, agents) && id in origins
    decreases origins[id].born
  {
    assert LinkOK(origins, agents, id, origins[id]);
    if origins[id].parent.None? then {id} else {id} + Ancestry(origins, agents, origins[id].parent.value)
  }

  ghost function DispatchesAbove(origins: map<Id, Origin>, agents: map<Id, Agent>, id: Id): set<Id>
    requires LinksOK(origins, agents) && id in origins
  {
    set x | x in Ancestry(origins, agents, id) && x in origins && IsWorkerDispatch(origins[x], agents)
  }

  /** Everything on the path is older, on the same chain and on the same issue. */
  lemma {:induction false} AncestryShape(origins: map<Id, Origin>, agents: map<Id, Agent>, id: Id, x: Id)
    requires LinksOK(origins, agents) && id in origins && x in Ancestry(origins, agents, id)
    ensures x in origins && origins[x].born <= origins[id].born
    ensures origins[x].chain == origins[id].chain && origins[x].issue == origins[id].issue
    decreases origins[id].born
  {
    assert LinkOK(origins, agents, id, origins[id]);
    if x != id {
      AncestryShape(origins, agents, origins[id].parent.value, x);
    }
  }

  /** `chain_depth` counts the auto-chain dispatches to non-main agents on the parent path. */
  lemma {:induction false} DepthCountsDispatches(origins: map<Id, Origin>, agents: map<Id, Agent>, id: Id)
    requires LinksOK(origins, agents) && id in origins
    ensures |DispatchesAbove(origins, agents, id)| == origins[id].depth
    decreases origins[id].born
  {
    assert LinkOK(origins, agents, id, origins[id]);
    var here := DispatchesAbove(origins, agents, id);
    if origins[id].parent.None? {
      assert here == {};
    } else {
      var p := origins[id].parent.value;
      DepthCountsDispatches(origins, agents, p);
      var above := DispatchesAbove(origins, agents, p);
      if id in above {
        AncestryShape(origins, agents, p, id);
      }
      assert here == if IsWorkerDispatch(origins[id], agents) then above + {id} else above;
    }
  }

  ghost function WorkersOf(agents: map<Id, Agent>, ws: Id): set<Id> {
    set a | a in agents && !agents[a].isMain && agents[a].workspace == ws
  }

  /** The agents of a set of dispatches with pairwise different agents are as many as the dispatches. */
  lemma {:induction false} DistinctAgents(origins: map<Id, Origin>, ds: set<Id>, workers: set<Id>)
    requires forall x :: x in ds ==> x in origins && origins[x].agent in workers
    requires forall x, y :: x in ds && y in ds && origins[x].agent == origins[y].agent ==> x == y
    ensures |ds| <= |workers|
    decreases |ds|
  {
    if ds != {} {
      var d :| d in ds;
      var rest := workers - {origins[d].agent};
      DistinctAgents(origins, ds - {d}, rest);
      assert workers == rest + {origins[d].agent};
      assert ds == (ds - {d}) + {d};
    }
  }

  lemma DepthWithinWorkers(db: DB, id: Id)
    requires GraphOK(db) && id in db.origins && db.origins[id].issue in db.homes
    ensures db.origins[id].depth <= |WorkersOf(db.agents, db.homes[db.origins[id].issue])|
  {
    DepthCountsDispatches(db.origins, db.agents, id);
    var ds := DispatchesAbove(db.origins, db.agents, id);
    var workers := WorkersOf(db.agents, db.homes[db.origins[id].issue]);
    forall x | x in ds
      ensures db.origins[x].agent in workers && db.origins[x].chain == db.origins[id].chain
    {
      AncestryShape(db.origins, db.agents, id, x);
      assert OriginRefs(db.origins[x], db.homes, db.agents, db.stamp);
    }
    forall x, y | x in ds && y in ds && db.origins[x].agent == db.origins[y].agent
      ensures x == y
    {
      assert SameDispatch(db.origins[x], db.origins[y], db.agents);
    }
    DistinctAgents(db.origins, ds, workers);
  }

  /**
   In every reachable state: depth counts the worker dispatches on the parent path and is at most the number of
   the workspace's non-main agents; the runs of a chain share one issue; each worker is dispatched once per chain.
   */
  lemma ChainTheorem(dbs: seq<DB>, steps: seq<Step>, i: nat, id: Id, other: Id)
    requires IsHistory(dbs, steps) && i < |dbs| && id in dbs[i].origins && other in dbs[i].origins
    requires dbs[i].origins[id].chain == dbs[i].origins[other].chain
    ensures var db := dbs[i];
            && LinksOK(db.origins, db.agents)
            && |DispatchesAbove(db.origins, db.agents, id)| == db.origins[id].depth
            && db.origins[id].issue == db.origins[other].issue
            && db.origins[id].issue in db.homes
            && db.origins[id].depth <= |WorkersOf(db.agents, db.homes[db.origins[id].issue])|
            && (SameDispatch(db.origins[id], db.origins[other], db.agents) ==> id == other)
  {
    hide Apply, LivesOK, SettingsOK, DispatchesAbove, WorkersOf;
    HistoryInv(dbs, steps, i);
    ChainFacts(dbs[i], id, other);
  }

  lemma ChainFacts(db: DB, id: Id, other: Id)
    requires GraphOK(db) && id in db.origins && other in db.origins && db.origins[id].chain == db.origins[other].chain
    ensures |DispatchesAbove(db.origins, db.agents, id)| == db.origins[id].depth
    ensures db.origins[id].issue == db.origins[other].issue && db.origins[id].issue in db.homes
    ensures db.origins[id].depth <= |WorkersOf(db.agents, db.homes[db.origins[id].issue])|
    ensures SameDispatch(db.origins[id], db.origins[other], db.agents) ==> id == other
  {
    hide DispatchesAbove, WorkersOf;
    assert LinkOK(db.origins, db.agents, id, db.origins[id]) && LinkOK(db.origins, db.agents, other, db.origins[other]);
    assert OriginRefs(db.origins[id], db.homes, db.agents, db.stamp);
    DepthCountsDispatches(db.origins, db.agents, id);
    DepthWithinWorkers(db, id);
  }

  // ---------------------------------------------------------------- the depth limit

  ghost predicate DepthsWithin(origins: map<Id, Origin>, limit: int) {
    forall id :: id in origins ==> origins[id].depth <= limit
  }

  ghost predicate LimitsWithin(db: DB, limit: int) {
    forall ws :: ws in db.workspaces ==> NormalizeMaxDepth(db.workspaces[ws].maxDepth) <= limit
  }

  lemma DepthStep(db: DB, db': DB, limit: int)
    requires InsertsLawfully(db, db') && SameOrigins(db.origins, db'.origins)
    requires DepthsWithin(db.origins, limit) && LimitsWithin(db, limit) && limit >= 0
    ensures DepthsWithin(db'.origins, limit)
  {
    forall id | id in db'.origins
      ensures db'.origins[id].depth <= limit
    {
      if id !in db.origins {
        assert LawfulInsert(db, db'.origins[id], db'.issues);
      }
    }
  }

  lemma LimitsBelowTwenty(db: DB)
    ensures LimitsWithin(db, 20)
  {
  }

  /** While no workspace allows more than `limit`, no run is deeper; without any assumption no run is deeper than 20. */
  lemma {:induction false} DepthLimit(dbs: seq<DB>, steps: seq<Step>, i: nat, limit: int)
    requires IsHistory(dbs, steps) && i < |dbs| && limit >= 0
    requires limit == 20 || forall k :: 0 <= k < i ==> LimitsWithin(dbs[k], limit)
    ensures DepthsWithin(dbs[i].origins, limit)
  {
    hide Apply, Inv, InsertsLawfully, LimitsWithin;
    if i > 0 {
      DepthLimit(dbs, steps, i - 1, limit);
      if limit == 20 {
        LimitsBelowTwenty(dbs[i - 1]);
      }
      HistoryEvolves(dbs, steps, i - 1);
      StepInserts(dbs[i - 1], steps[i - 1]);
      DepthStep(dbs[i - 1], dbs[i], limit);
    }
  }

  // ---------------------------------------------------------------- the daily run limit

  /** Auto-chain dispatches of positive depth that were enqueued in the day starting at `t`. */
  ghost function DispatchedInDay(origins: map<Id, Origin>, homes: map<Id, Id>, ws: Id, t: int): set<Id> {
    set id | id in origins && InWorkspace(origins, homes, id, ws) && IsAutoChain(origins[id]) && origins[id].depth > 0
             && t <= origins[id].enqueuedAt <= t + DAY_SECONDS
  }

  ghost predicate DayLimitHolds(db: DB, ws: Id, limit: nat) {
    forall t :: |DispatchedInDay(db.origins, db.homes, ws, t)| <= limit
  }

  lemma SubsetSize<T>(a: set<T>, b: set<T>)
    requires a <= b
    ensures |a| <= |b|
  {
    if a != {} {
      var x :| x in a;
      SubsetSize(a - {x}, b - {x});
    }
  }

  /** The window of a new dispatch lies inside the window the guard counted. */
  lemma WindowGuard(db: DB, ws: Id, t: int, o: Origin, limit: nat)
    requires t <= o.enqueuedAt <= t + DAY_SECONDS
    requires |RecentChainRuns(db.origins, db.homes, ws, o.enqueuedAt - DAY_SECONDS)| < limit
    ensures |DispatchedInDay(db.origins, db.homes, ws, t)| < limit
  {
    SubsetSize(DispatchedInDay(db.origins, db.homes, ws, t),
               RecentChainRuns(db.origins, db.homes, ws, o.enqueuedAt - DAY_SECONDS));
  }

  lemma OldWindow(db: DB, db': DB, ws: Id, t: int)
    requires InsertsLawfully(db, db') && SameOrigins(db.origins, db'.origins)
    requires RefsOK(db.origins, db.homes, db.agents, db.stamp)
    ensures forall x :: x in DispatchedInDay(db'.origins, db'.homes, ws, t) && x in db.origins
                        ==> x in DispatchedInDay(db.origins, db.homes, ws, t)
  {
    hide LawfulInsert;
    forall x | x in DispatchedInDay(db'.origins, db'.homes, ws, t) && x in db.origins
      ensures x in DispatchedInDay(db.origins, db.homes, ws, t)
    {
      assert OriginRefs(db.origins[x], db.homes, db.agents, db.stamp);
    }
  }

  lemma NewDispatchGuarded(db: DB, db': DB, ws: Id, t: int, x: Id, limit: nat)
    requires InsertsLawfully(db, db') && x !in db.origins && x in DispatchedInDay(db'.origins, db'.homes, ws, t)
    requires ws in db.workspaces && db.workspaces[ws].dailyRunLimit == limit > 0
    ensures |DispatchedInDay(db.origins, db.homes, ws, t)| < limit
  {
    var o := db'.origins[x];
    assert LawfulInsert(db, o, db'.issues);
    WindowGuard(db, ws, t, o, limit);
  }

  lemma DayStep(db: DB, db': DB, ws: Id, limit: nat)
    requires Inv(db) && InsertsLawfully(db, db') && SameOrigins(db.origins, db'.origins)
    requires DayLimitHolds(db, ws, limit)
    requires ws in db.workspaces ==> db.workspaces[ws].dailyRunLimit == limit
    requires limit > 0
    ensures DayLimitHolds(db', ws, limit)
  {
    forall t
      ensures |DispatchedInDay(db'.origins, db'.homes, ws, t)| <= limit
    {
      DayWindowStep(db, db', ws, t, limit);
    }
  }

  lemma DayWindowStep(db: DB, db': DB, ws: Id, t: int, limit: nat)
    requires Inv(db) && InsertsLawfully(db, db') && SameOrigins(db.origins, db'.origins)
    requires |DispatchedInDay(db.origins, db.homes, ws, t)| <= limit
    requires ws in db.workspaces ==> db.workspaces[ws].dailyRunLimit == limit
    requires limit > 0
    ensures |DispatchedInDay(db'.origins, db'.homes, ws, t)| <= limit
  {
    hide LinksOK, DispatchedOnce, LivesOK, SettingsOK, LawfulInsert, SameOrigins;
    OldWindow(db, db', ws, t);
    var old', new' := DispatchedInDay(db.origins, db.homes, ws, t), DispatchedInDay(db'.origins, db'.homes, ws, t);
    if x :| x in new' && x !in db.origins {
      DispatchIsInWorkspace(db, db', ws, x);
      NewDispatchGuarded(db, db', ws, t, x, limit);
      assert new' <= old' + {x};
      SubsetSize(new', old' + {x});
    } else {
      SubsetSize(new', old');
    }
  }

  lemma DispatchIsInWorkspace(db: DB, db': DB, ws: Id, x: Id)
    requires InsertsLawfully(db, db') && x in db'.origins && x !in db.origins && IsAutoChain(db'.origins[x])
    requires InWorkspace(db'.origins, db'.homes, x, ws)
    ensures ws in db.workspaces
  {
    assert LawfulInsert(db, db'.origins[x], db'.issues);
  }

  /**
   While a workspace keeps the daily run limit `limit`, no day-long window holds more than `limit` auto-chain
   dispatches of positive depth, however many chain retries are added.
   */
  lemma {:induction false} DailyRunLimit(dbs: seq<DB>, steps: seq<Step>, i: nat, ws: Id, limit: nat)
    requires IsHistory(dbs, steps) && i < |dbs| && limit > 0
    requires forall k :: 0 <= k < i && ws in dbs[k].workspaces ==> dbs[k].workspaces[ws].dailyRunLimit == limit
    ensures forall t :: |DispatchedInDay(dbs[i].origins, dbs[i].homes, ws, t)| <= limit
  {
    hide Apply, Inv, InsertsLawfully;
    if i == 0 {
      forall t
        ensures DispatchedInDay(dbs[0].origins, dbs[0].homes, ws, t) == {}
      {
      }
    } else {
      DailyRunLimit(dbs, steps, i - 1, ws, limit);
      HistoryEvolves(dbs, steps, i - 1);
      StepInserts(dbs[i - 1], steps[i - 1]);
      DayStep(dbs[i - 1], dbs[i], ws, limit);
    }
  }
}
