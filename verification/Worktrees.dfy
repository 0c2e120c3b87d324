/**
 Garbage collection of per-run worktree directories, interleaved with the run queue.

 The sweep lists a directory, asks the guard and removes the directory in three separate moments of the
 queue's history, and any number of transactions may commit in between.
 */
module Worktrees {
  import opened RunQueue
  import opened QueueInvariant
  import opened QueueEvolution
  import opened QueueLifecycle

  /** The guard: the run is still queued or running. Unknown and finished runs are not protected. */
  predicate IsRunWorktreeGCProtected(db: DB, id: Id) {
    id in db.runs && IsActive(db.runs[id].status)
  }

  /**
   The worktrees on disk along a history: a directory is made only under the id of a run that has been inserted. The worker
   makes it after its claim has committed, so the run may have been cancelled, retried or deleted in the meantime.
   */
  ghost predicate WorktreesAlong(dbs: seq<DB>, dirs: seq<set<Id>>) {
    && |dirs| == |dbs| > 0
    && dirs[0] == {}
    && forall i :: 0 < i < |dirs| ==>
                     forall id :: id in dirs[i] && id !in dirs[i - 1] ==> id in dbs[i - 1].issued
  }

  lemma {:induction false} WorktreeIsIssued(dbs: seq<DB>, steps: seq<Step>, dirs: seq<set<Id>>, i: nat, id: Id)
    requires IsHistory(dbs, steps) && WorktreesAlong(dbs, dirs) && i < |dirs| && id in dirs[i]
    ensures id in dbs[i].issued
  {
    hide Apply, Evolves, GraphOK, LivesOK, SettingsOK;
    HistoryEvolves(dbs, steps, i - 1);
    if id in dirs[i - 1] {
      WorktreeIsIssued(dbs, steps, dirs, i - 1, id);
    }
    IssuedGrows(dbs[i - 1], dbs[i]);
  }

  lemma IssuedGrows(db: DB, db': DB)
    requires Evolves(db, db')
    ensures db.issued <= db'.issued
  {
    hide SameOrigins, LivesMove, RowsComeAndGo;
  }

  /** An id that was handed out and is not protected now is never protected again. */
  lemma {:induction false} UnprotectedForGood(dbs: seq<DB>, steps: seq<Step>, i: nat, j: nat, id: Id)
    requires IsHistory(dbs, steps) && i <= j < |dbs|
    requires id in dbs[i].issued && !IsRunWorktreeGCProtected(dbs[i], id)
    ensures id in dbs[j].issued && !IsRunWorktreeGCProtected(dbs[j], id)
    decreases j
  {
    hide Apply, Inv, Evolves;
    if i < j {
      UnprotectedForGood(dbs, steps, i, j - 1, id);
      HistoryEvolves(dbs, steps, j - 1);
      StaysGoneOrSame(dbs[j - 1], dbs[j], id, if id in dbs[j - 1].runs then dbs[j - 1].runs[id] else NewLife().(status := Done));
    }
  }

  datatype Fault = NoFault | StatFails | GuardFails | RemoveFails

  /**
   What the sweep meets at one entry of a workspace directory: the entry is listed, checked and removed at three
   moments of the history, and one of the calls may fail.
   */
  datatype Entry = Entry(run: Id, isDir: bool, modified: int, seenAt: nat, checkedAt: nat, removedAt: nat, fault: Fault)

  datatype Slug = Slug(isDir: bool, readable: bool, entries: seq<Entry>)

  ghost predicate EntryOK(e: Entry, dirs: seq<set<Id>>) {
    && e.seenAt <= e.checkedAt <= e.removedAt < |dirs|
    && (e.isDir ==> e.run in dirs[e.seenAt])
  }

  ghost predicate SlugOK(s: Slug, dirs: seq<set<Id>>) {
    forall k :: 0 <= k < |s.entries| ==> EntryOK(s.entries[k], dirs)
  }

  datatype Outcome = Skipped | Swept | Errored

  /** An old directory whose run the guard does not protect is swept, unless a call fails on the way. */
  function OutcomeOf(e: Entry, cutoff: int, dbs: seq<DB>): Outcome {
    if !e.isDir || e.checkedAt >= |dbs| then Skipped
    else if e.fault == StatFails then Errored
    else if e.modified >= cutoff then Skipped
    else if e.fault == GuardFails then Errored
    else if IsRunWorktreeGCProtected(dbs[e.checkedAt], e.run) then Skipped
    else if e.fault == RemoveFails then Errored
    else Swept
  }

  /** The entries of a directory with the given outcome, in order. */
  function Select(entries: seq<Entry>, cutoff: int, dbs: seq<DB>, outcome: Outcome): seq<Entry> {
    if entries == [] then []
    else
      var last := entries[|entries| - 1];
      Select(entries[..|entries| - 1], cutoff, dbs, outcome) + if OutcomeOf(last, cutoff, dbs) == outcome then [last] else []
  }

  function SelectAll(slugs: seq<Slug>, cutoff: int, dbs: seq<DB>): seq<Entry> {
    if slugs == [] then []
    else
      var last := slugs[|slugs| - 1];
      SelectAll(slugs[..|slugs| - 1], cutoff, dbs)
      + if last.isDir && last.readable then Select(last.entries, cutoff, dbs, Swept) else []
  }

  /** Calls that failed: unreadable workspace directories and entries on which a call failed. */
  function ErrorCount(slugs: seq<Slug>, cutoff: int, dbs: seq<DB>): nat {
    if slugs == [] then 0
    else
      var last := slugs[|slugs| - 1];
      ErrorCount(slugs[..|slugs| - 1], cutoff, dbs)
      + if !last.isDir then 0 else if last.readable then |Select(last.entries, cutoff, dbs, Errored)| else 1
  }

  /** At the moment of removal the entry is an old directory and its run, if there still is one, neither queued nor running. */
  ghost predicate SafeRemoval(e: Entry, cutoff: int, dbs: seq<DB>) {
    && e.removedAt < |dbs| && e.isDir && e.modified < cutoff
    && (var runs := dbs[e.removedAt].runs; e.run in runs ==> runs[e.run].status != Queued && runs[e.run].status != Running)
  }

  /** Nothing stands in the way of the removal: an old directory, no failing call, and a run that is over when checked. */
  ghost predicate Removable(e: Entry, cutoff: int, dbs: seq<DB>) {
    && e.checkedAt < |dbs| && e.isDir && e.modified < cutoff && e.fault == NoFault
    && (var runs := dbs[e.checkedAt].runs; e.run in runs ==> runs[e.run].status != Queued && runs[e.run].status != Running)
  }

  /** The sweep of a directory takes exactly the removable entries. */
  lemma {:induction false} SweptIff(entries: seq<Entry>, cutoff: int, dbs: seq<DB>, e: Entry)
    ensures e in Select(entries, cutoff, dbs, Swept) <==> e in entries && Removable(e, cutoff, dbs)
  {
    if entries != [] {
      var last := entries[|entries| - 1];
      assert entries == entries[..|entries| - 1] + [last];
      SweptIff(entries[..|entries| - 1], cutoff, dbs, e);
    }
  }

  /** The whole sweep takes exactly the removable entries of the directories it can read. */
  lemma {:induction false} SweptAllIff(slugs: seq<Slug>, cutoff: int, dbs: seq<DB>, e: Entry)
    ensures e in SelectAll(slugs, cutoff, dbs)
            <==> Removable(e, cutoff, dbs) && exists s :: s in slugs && s.isDir && s.readable && e in s.entries
  {
    hide Select, Removable;
    if slugs != [] {
      var last := slugs[|slugs| - 1];
      assert slugs == slugs[..|slugs| - 1] + [last];
      SweptAllIff(slugs[..|slugs| - 1], cutoff, dbs, e);
      SweptIff(last.entries, cutoff, dbs, e);
    }
  }

  lemma SweptIsSafe(dbs: seq<DB>, steps: seq<Step>, dirs: seq<set<Id>>, e: Entry, cutoff: int)
    requires IsHistory(dbs, steps) && WorktreesAlong(dbs, dirs) && EntryOK(e, dirs) && OutcomeOf(e, cutoff, dbs) == Swept
    ensures SafeRemoval(e, cutoff, dbs)
  {
    hide Apply, Inv, Evolves;
    WorktreeIsIssued(dbs, steps, dirs, e.seenAt, e.run);
    IssuedStays(dbs, steps, e.seenAt, e.checkedAt, e.run);
    UnprotectedForGood(dbs, steps, e.checkedAt, e.removedAt, e.run);
  }

  lemma {:induction false} IssuedStays(dbs: seq<DB>, steps: seq<Step>, i: nat, j: nat, id: Id)
    requires IsHistory(dbs, steps) && i <= j < |dbs| && id in dbs[i].issued
    ensures id in dbs[j].issued
    decreases j
  {
    hide Apply, Inv, Evolves;
    if i < j {
      IssuedStays(dbs, steps, i, j - 1, id);
      HistoryEvolves(dbs, steps, j - 1);
      IssuedGrows(dbs[j - 1], dbs[j]);
    }
  }

  /** Sweeps one workspace directory. */
  method PruneSlug(entries: seq<Entry>, cutoff: int, dbs: seq<DB>, ghost steps: seq<Step>, ghost dirs: seq<set<Id>>)
    returns (removed: seq<Entry>, errors: nat)
    requires IsHistory(dbs, steps) && WorktreesAlong(dbs, dirs)
    requires forall k :: 0 <= k < |entries| ==> EntryOK(entries[k], dirs)
    ensures removed == Select(entries, cutoff, dbs, Swept)
    ensures errors == |Select(entries, cutoff, dbs, Errored)|
    ensures forall k :: 0 <= k < |removed| ==> SafeRemoval(removed[k], cutoff, dbs)
  {
    hide IsHistory, WorktreesAlong, SafeRemoval, IsRunWorktreeGCProtected;
    removed, errors := [], 0;
    for i := 0 to |entries|
      invariant removed == Select(entries[..i], cutoff, dbs, Swept)
      invariant errors == |Select(entries[..i], cutoff, dbs, Errored)|
      invariant forall k :: 0 <= k < |removed| ==> SafeRemoval(removed[k], cutoff, dbs)
    {
      var e := entries[i];
      assert EntryOK(e, dirs) && |dirs| == |dbs| by { WorktreesLength(dbs, dirs); }
      assert entries[..i + 1][..i] == entries[..i];
      if !e.isDir { continue; }
      if e.fault == StatFails { errors := errors + 1; continue; }
      if !(e.modified < cutoff) { continue; }
      if e.fault == GuardFails { errors := errors + 1; continue; }
      if IsRunWorktreeGCProtected(dbs[e.checkedAt], e.run) { continue; }
      if e.fault == RemoveFails { errors := errors + 1; continue; }
      SweptIsSafe(dbs, steps, dirs, e, cutoff);
      removed := removed + [e];
    }
    assert entries[..|entries|] == entries;
  }

  lemma WorktreesLength(dbs: seq<DB>, dirs: seq<set<Id>>)
    requires WorktreesAlong(dbs, dirs)
    ensures |dirs| == |dbs|
  {
  }

  /**
   The whole sweep removes exactly the old, unprotected directories it can reach, and at the moment of each
   removal the run is neither queued nor running, whatever the queue did since the guard was asked.
   */
  method PruneStaleWorktrees(slugs: seq<Slug>, cutoff: int, dbs: seq<DB>, ghost steps: seq<Step>, ghost dirs: seq<set<Id>>)
    returns (removed: seq<Entry>, errors: nat)
    requires IsHistory(dbs, steps) && WorktreesAlong(dbs, dirs)
    requires forall s :: 0 <= s < |slugs| ==> SlugOK(slugs[s], dirs)
    ensures removed == SelectAll(slugs, cutoff, dbs) && errors == ErrorCount(slugs, cutoff, dbs)
    ensures forall k :: 0 <= k < |removed| ==> SafeRemoval(removed[k], cutoff, dbs)
  {
    hide IsHistory, SafeRemoval, OutcomeOf, WorktreesAlong;
    removed, errors := [], 0;
    for i := 0 to |slugs|
      invariant removed == SelectAll(slugs[..i], cutoff, dbs) && errors == ErrorCount(slugs[..i], cutoff, dbs)
      invariant forall k :: 0 <= k < |removed| ==> SafeRemoval(removed[k], cutoff, dbs)
    {
      assert SlugOK(slugs[i], dirs);
      assert slugs[..i + 1][..i] == slugs[..i];
      if slugs[i].isDir {
        if slugs[i].readable {
          var r, n := PruneSlug(slugs[i].entries, cutoff, dbs, steps, dirs);
          removed, errors := removed + r, errors + n;
        } else {
          errors := errors + 1;
        }
      }
    }
    assert slugs[..|slugs|] == slugs;
  }
}
