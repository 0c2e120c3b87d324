/** The rows of the cancel hand-off are an abstraction of the run queue's rows. */
module HandoffRows {
  import opened Common
  import opened RetryPolicies
  import opened RunQueue
  import opened QueueInvariant
  import opened QueueEvolution
  import Handoff = CancelHandoff

  /** A queue row as the hand-off sees it; a row that was never retried is due from the start. */
  function RowView(r: Life): Handoff.Row {
    match r.status
    case Queued => Handoff.Waiting(if r.nextRetryAt.Some? then r.nextRetryAt.value * Handoff.SECOND else 0)
    case Running => Handoff.Active
    case Done => Handoff.Ended(r.claimedAt.Some?)
    case Failed => Handoff.Ended(r.claimedAt.Some?)
    case Cancelled => Handoff.Ended(r.claimedAt.Some?)
  }

  /** The moves the hand-off's steps make with a row: a claim, a scheduled retry, an end. */
  predicate RowMoves(row: Handoff.Row, row': Handoff.Row) {
    row' == row || row' == Handoff.Over(row) || (row.Waiting? && row'.Active?) || (row.Active? && row'.Waiting?)
  }

  lemma LifeMovesRow(m: int, r: Life, es: seq<Event>, r': Life)
    requires RowOK(m, r, es) && Moves(r, r')
    ensures RowMoves(RowView(r), RowView(r'))
  {
  }

  /** Every transaction of the queue moves every row the way the hand-off's steps do, and only rows that are over disappear. */
  lemma QueueMovesRows(db: DB, step: Step, id: Id)
    requires Inv(db) && Fresh(db, step) && id in db.runs
    ensures id in Apply(db, step).runs ==> RowMoves(RowView(db.runs[id]), RowView(Apply(db, step).runs[id]))
    ensures id !in Apply(db, step).runs ==> Handoff.Final(RowView(db.runs[id]))
  {
    hide Apply, RowOK, Moves, GraphOK, LivesOK, SettingsOK;
    StepEvolves(db, step);
    RowAt(db, id);
    if id in Apply(db, step).runs {
      LifeMovesRow(db.origins[id].maxAttempts, db.runs[id], db.events[id], Apply(db, step).runs[id]);
    }
  }

  /** A claim takes only a row that is due, and a scheduled retry rests for at least a second. */
  lemma QueueKeepsTime(db: DB, id: Id, kind: FailureKind, now: int)
    ensures NextRun(db, now) == Some(id) && db.runs[id].nextRetryAt.Some? ==> RowView(db.runs[id]).due <= now * Handoff.SECOND
    ensures RescheduleRunForRetry(db, id, kind, now).Ok? ==>
              RowView(RescheduleRunForRetry(db, id, kind, now).value.runs[id]).due >= now * Handoff.SECOND + Handoff.SECOND
  {
  }
}
