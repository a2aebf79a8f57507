/**
 * The score rows the web client reads back from the training API, one per arrow, and the
 * possible outcomes of one `getScores(session, round)` request.  The request itself is
 * outside the model: callers pass in the outcome.
 */
module ScoreRows {
  import opened Common

  /** One stored arrow; columns that may be null are options. */
  datatype StoredScore = StoredScore(
    arrowNumber: int,
    x: Option<real>,
    y: Option<real>,
    score: Option<int>,
    scoringRing: Option<int>)

  /**
   * `Threw`: the request raised an error; `Unsuccessful`: a reply without `success` or
   * without data; `Loaded`: a successful reply carrying the round's score rows.
   */
  datatype ScoresReply = Threw | Unsuccessful | Loaded(rows: seq<StoredScore>)

  /** `score.score || 0`: a missing score counts as 0. */
  function RowScore(row: StoredScore): int {
    row.score.GetOr(0)
  }

  function RowScores(rows: seq<StoredScore>): (s: seq<int>)
    ensures |s| == |rows|
    ensures forall i :: 0 <= i < |rows| ==> s[i] == RowScore(rows[i])
  {
    if rows == [] then [] else RowScores(rows[..|rows| - 1]) + [RowScore(rows[|rows| - 1])]
  }

  /** The round total a reply contributes: the sum of its rows, 0 when nothing was loaded. */
  function ReplyTotal(reply: ScoresReply): int {
    if reply.Loaded? then Sum(RowScores(reply.rows)) else 0
  }
}
