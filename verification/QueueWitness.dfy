/** A concrete history in which a retry is refused and its run stays running. */
module QueueWitness {
  import opened Common
  import opened RetryPolicies
  import opened RunQueue
  import opened QueueInvariant
  import opened QueueLifecycle
  import opened QueueExclusion

  const TWO_ATTEMPTS := RetryPolicy(2, [], None)
  const SERIAL := Workspace(false, false, 5, 0, false, false)
  const TIMED_OUT := Execution(false, true, true, true, 1, false, false, None, false)

  /** One agent with two attempts; its run is executing when a user mentions it again, and then times out. */
  function MentionedWhileRunning(): (steps: seq<Step>)
    ensures |steps| == 6
  {
    [StPutWorkspace(0, SERIAL), StAddAgent(0, 0, false, TWO_ATTEMPTS), StCreateIssue(0, 0, 0, true, 0, 1), StClaim(0),
     StComment(0, 0, 0, 2), StFinish(1, TIMED_OUT, 0, 3)]
  }

  ghost function Replay(db: DB, steps: seq<Step>): seq<DB>
    decreases |steps|
  {
    if steps == [] then [db] else [db] + Replay(Apply(db, steps[0]), steps[1..])
  }

  lemma {:induction false} ReplayIsChain(db: DB, steps: seq<Step>)
    ensures |Replay(db, steps)| == |steps| + 1 && Replay(db, steps)[0] == db
    ensures forall i :: 0 <= i < |steps| ==> Replay(db, steps)[i + 1] == Apply(Replay(db, steps)[i], steps[i])
    decreases |steps|
  {
    hide Apply;
    if steps != [] {
      ReplayIsChain(Apply(db, steps[0]), steps[1..]);
    }
  }

  ghost predicate Follows(dbs: seq<DB>) {
    && |dbs| == 7 && dbs[0] == EmptyDB(2)
    && forall i :: 0 <= i < 6 ==> dbs[i + 1] == Apply(dbs[i], MentionedWhileRunning()[i])
  }

  const FIRST := Origin(0, 0, IssueCreated, None, 1, 0, 0, 2, 0)

  lemma IssueCreatedThere(dbs: seq<DB>)
    requires Follows(dbs)
    ensures dbs[1].issued == {} && dbs[2].issued == {}
    ensures var db := dbs[3];
            && db.workspaces == map[0 := SERIAL] && db.agents == map[0 := Agent(0, false)] && db.policies == map[0 := TWO_ATTEMPTS]
            && db.homes == map[0 := 0] && db.origins == map[1 := FIRST] && db.runs == map[1 := NewLife()] && db.issued == {1}
  {
    hide AppendEvent;
    var steps := MentionedWhileRunning();
    assert dbs[0 + 1] == ApplySettings(dbs[0], steps[0]);
    assert dbs[1 + 1] == ApplySettings(dbs[1], steps[1]);
    assert dbs[2 + 1] == ApplyEnqueue(dbs[2], steps[2]);
    assert dbs[2].agents == map[0 := Agent(0, false)] && dbs[2].policies == map[0 := TWO_ATTEMPTS];
    assert AgentAt(dbs[2], 0, 0);
  }

  lemma FirstRunClaimed(dbs: seq<DB>)
    requires Follows(dbs)
    ensures var db := dbs[4];
            && db.agents == map[0 := Agent(0, false)] && db.policies == map[0 := TWO_ATTEMPTS] && db.homes == map[0 := 0]
            && db.origins == map[1 := FIRST] && db.runs == map[1 := Started(NewLife(), 0)] && db.issued == {1}
  {
    hide AppendEvent, NextRun, ApplyEnqueue, ApplyRetire, ApplySettings;
    IssueCreatedThere(dbs);
    assert dbs[3 + 1] == ClaimNextRun(dbs[3], 0);
    OnlyCandidate(dbs[3]);
  }

  lemma OnlyCandidate(db: DB)
    requires db.workspaces == map[0 := SERIAL] && db.homes == map[0 := 0] && db.origins == map[1 := FIRST] && db.runs == map[1 := NewLife()]
    ensures NextRun(db, 0) == Some(1)
  {
    hide NextRun;
    assert Eligible(db, 0, 1);
    NextRunExists(db, 0);
  }

  lemma SecondRunQueued(dbs: seq<DB>)
    requires Follows(dbs)
    ensures var db := dbs[5];
            && db.policies == map[0 := TWO_ATTEMPTS] && db.issued == {1, 2}
            && Has(db, 1) && db.origins[1] == FIRST && db.runs[1] == Started(NewLife(), 0)
            && Has(db, 2) && db.origins[2].issue == 0 && db.origins[2].agent == 0 && db.runs[2] == NewLife()
  {
    hide AppendEvent;
    FirstRunClaimed(dbs);
    assert dbs[4 + 1] == ApplyEnqueue(dbs[4], MentionedWhileRunning()[4]);
    assert !QueuedClash(dbs[4].origins, dbs[4].runs, 0, 0);
  }

  /** The history exists. */
  lemma WitnessIsHistory()
    ensures IsHistory(Replay(EmptyDB(2), MentionedWhileRunning()), MentionedWhileRunning())
  {
    hide Apply;
    var steps := MentionedWhileRunning();
    var dbs := Replay(EmptyDB(2), steps);
    ReplayIsChain(EmptyDB(2), steps);
    IssueCreatedThere(dbs);
    FirstRunClaimed(dbs);
    SecondRunQueued(dbs);
    forall i | 0 <= i < |steps|
      ensures Fresh(dbs[i], steps[i])
    {
      if i == 2 {
      } else if i == 4 {
      } else if i == 5 {
      }
    }
  }

  /** At its end the timed-out run is still running, with an attempt left and its agent's other run waiting behind it. */
  lemma TimedOutRunStaysRunning()
    ensures var dbs := Replay(EmptyDB(2), MentionedWhileRunning());
            && |dbs| == 7
            && Has(dbs[5], 1) && dbs[5].runs[1].status == Running && Retryable(dbs[5], 1, TIMED_OUT)
            && 1 in dbs[6].runs && dbs[6].runs[1].status == Running
  {
    hide Inv, FinishRun, QueuedClash, Apply, Replay, Retryable;
    var steps := MentionedWhileRunning();
    var dbs := Replay(EmptyDB(2), steps);
    ReplayIsChain(EmptyDB(2), steps);
    WitnessIsHistory();
    SecondRunQueued(dbs);
    HistoryInv(dbs, steps, 5);
    WaitingClashes(dbs[5]);
    TimeoutIsRetryable(dbs[5]);
    FinishIsStep(dbs[5]);
    FinishLeavesRunning(dbs[5], 1, TIMED_OUT, 0, 3);
    assert dbs[5 + 1] == Apply(dbs[5], steps[5]);
  }

  lemma FinishIsStep(db: DB)
    ensures Apply(db, StFinish(1, TIMED_OUT, 0, 3)) == FinishRun(db, 1, TIMED_OUT, 0, 3)
  {
    hide FinishRun;
  }

  lemma TimeoutIsRetryable(db: DB)
    requires Has(db, 1) && db.origins[1] == FIRST && db.runs[1] == Started(NewLife(), 0) && db.policies == map[0 := TWO_ATTEMPTS]
    ensures Retryable(db, 1, TIMED_OUT)
  {
  }

  lemma WaitingClashes(db: DB)
    requires Has(db, 2) && db.origins[2].issue == 0 && db.origins[2].agent == 0 && db.runs[2] == NewLife()
    ensures QueuedClash(db.origins, db.runs, 0, 0)
  {
  }
}
