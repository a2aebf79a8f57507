/**
 * The state of the target-input screen of the web client for the end (round) being shot:
 * the shots placed on the target so far, the shot counter, the cumulative score of the
 * session, the "end complete" flag and the round number.  Every handler that talks to the
 * server takes the server's outcome as a parameter.
 */
module EndRecording {
  import opened Common
  import opened TargetScoring
  import opened ScoreRows
  import Ordering

  /** A shot on the target; a row loaded from the server may carry a null score (`None`). */
  datatype Shot = Shot(id: int, x: real, y: real, score: Option<int>, scoringRing: int)

  /** The shot the scorer makes of a click. */
  function ScoredShot(id: int, x: real, y: real, h: Hit): Shot {
    Shot(id, x, y, Some(h.score), h.scoringRing)
  }

  /** A shot's score in the cumulative arithmetic, where JavaScript reads a null score as 0. */
  function Counted(s: Shot): int {
    s.score.GetOr(0)
  }

  /** The body of the save request sent for a new shot. */
  datatype SaveRequest = SaveRequest(
    roundNumber: int, score: int, arrowNumber: int, x: real, y: real, scoringRing: int)

  /** The arrow the delete request names: (round, arrow number). */
  datatype DeleteRequest = DeleteRequest(roundNumber: int, arrowNumber: int)

  datatype ClickOutcome = AllArrowsShot | Saved | SaveFailed
  datatype UndoOutcome = NothingToUndo | Undone | DeleteFailed

  function ShotScores(shots: seq<Shot>): (s: seq<int>)
    ensures |s| == |shots|
    ensures forall i :: 0 <= i < |shots| ==> s[i] == Counted(shots[i])
  {
    if shots == [] then [] else ShotScores(shots[..|shots| - 1]) + [Counted(shots[|shots| - 1])]
  }

  function ShotTotal(shots: seq<Shot>): int {
    Sum(ShotScores(shots))
  }

  lemma ShotTotalAppend(shots: seq<Shot>, s: Shot)
    ensures ShotTotal(shots + [s]) == ShotTotal(shots) + Counted(s)
  {
    assert (shots + [s])[..|shots|] == shots;
    SumAppend(ShotScores(shots), Counted(s));
  }

  /** Sort key for "ascending arrow number": the stable descending sort on the negated number. */
  function ArrowOrder(row: StoredScore): real {
    -(row.arrowNumber as real)
  }

  /** A stored row as a shot; missing coordinates and ring become 0, the score is kept as stored. */
  function ShotOf(row: StoredScore): Shot {
    Shot(row.arrowNumber, row.x.GetOr(0.0), row.y.GetOr(0.0), row.score, row.scoringRing.GetOr(0))
  }

  function ShotsOf(rows: seq<StoredScore>): (s: seq<Shot>)
    ensures |s| == |rows|
    ensures forall i :: 0 <= i < |rows| ==>
      && s[i].id == rows[i].arrowNumber && s[i].score == rows[i].score
      && s[i].x == rows[i].x.GetOr(0.0) && s[i].y == rows[i].y.GetOr(0.0)
      && s[i].scoringRing == rows[i].scoringRing.GetOr(0)
  {
    if rows == [] then [] else ShotsOf(rows[..|rows| - 1]) + [ShotOf(rows[|rows| - 1])]
  }

  /** The scores of rounds 1..n added up, each round counting what its reply loaded. */
  function CumulativeTotal(rounds: int -> ScoresReply, n: int): int
    decreases n
  {
    if n < 1 then 0 else CumulativeTotal(rounds, n - 1) + ReplyTotal(rounds(n))
  }

  class EndRecorder {
    const arrowCount: int
    const target: TargetType
    var shots: seq<Shot>
    var currentShot: int
    var cumulativeScore: int
    var isComplete: bool
    var currentRound: int

    /** The shot counter always equals the number of shots, and a complete end has all its arrows. */
    ghost predicate Valid()
      reads this
    {
      currentShot == |shots| && (isComplete ==> currentShot >= arrowCount)
    }

    constructor (round: int, arrows: int, t: TargetType)
      ensures Valid()
      ensures shots == [] && currentShot == 0 && cumulativeScore == 0 && !isComplete
      ensures currentRound == round && arrowCount == arrows && target == t
    {
      arrowCount, target := arrows, t;
      shots, currentShot, cumulativeScore, isComplete := [], 0, 0, false;
      currentRound := round;
    }

    /**
     * Loading an end: the current round's rows (sorted by arrow number) become the shot list,
     * and the cumulative score is recomputed over rounds 1..currentRound.  The load runs
     * when the screen opens and after "next end", both times with the end not complete.
     */
    method Load(current: ScoresReply, rounds: int -> ScoresReply)
      requires Valid() && !isComplete
      modifies this
      ensures Valid() && !isComplete && currentRound == old(currentRound)
      ensures current.Loaded? ==> shots == ShotsOf(Ordering.SortDesc(current.rows, ArrowOrder))
      ensures current.Loaded? ==> forall i, j :: 0 <= i < j < |shots| ==> shots[i].id <= shots[j].id
      ensures !current.Loaded? ==> shots == old(shots)
      ensures cumulativeScore == if current.Threw? then old(cumulativeScore) else CumulativeTotal(rounds, currentRound)
    {
      if current.Threw? {
        return;
      }
      if current.Loaded? {
        var sorted := Ordering.SortDesc(current.rows, ArrowOrder);
        Ordering.SortDescFacts(current.rows, ArrowOrder);
        shots := ShotsOf(sorted);
        currentShot := |shots|;
        assert forall i, j :: 0 <= i < j < |sorted| ==> ArrowOrder(sorted[i]) >= ArrowOrder(sorted[j]);
      }
      var total := 0;
      var round := 1;
      while round <= currentRound
        invariant 1 <= round && (currentRound >= 1 ==> round <= currentRound + 1)
        invariant currentRound < 1 ==> round == 1
        invariant total == CumulativeTotal(rounds, round - 1)
      {
        total := total + ReplyTotal(rounds(round));
        round := round + 1;
      }
      cumulativeScore := total;
    }

    /** A click on the target at canvas point (x, y); `saveSucceeds` is the server's answer. */
    method Click(x: real, y: real, saveSucceeds: bool) returns (outcome: ClickOutcome, request: Option<SaveRequest>)
      requires Valid()
      modifies this
      ensures Valid() && currentRound == old(currentRound)
      ensures old(currentShot) >= arrowCount <==> outcome == AllArrowsShot
      ensures outcome == AllArrowsShot ==> request == None
      ensures outcome != AllArrowsShot ==>
        var h := Score(target, x, y);
        request == Some(SaveRequest(currentRound, h.score, old(currentShot) + 1, x, y, h.scoringRing))
        && outcome == (if saveSucceeds then Saved else SaveFailed)
      ensures outcome == Saved ==>
        var h := Score(target, x, y);
        && shots == old(shots) + [ScoredShot(old(currentShot) + 1, x, y, h)]
        && cumulativeScore == old(cumulativeScore) + h.score
        && isComplete == (currentShot >= arrowCount)
      ensures outcome != Saved ==>
        shots == old(shots) && cumulativeScore == old(cumulativeScore) && isComplete == old(isComplete)
      ensures cumulativeScore - ShotTotal(shots) == old(cumulativeScore - ShotTotal(shots))
    {
      if currentShot >= arrowCount {
        return AllArrowsShot, None;
      }
      var h := CalculateScore(target, x, y);
      var newShot := ScoredShot(currentShot + 1, x, y, h);
      request := Some(SaveRequest(currentRound, h.score, newShot.id, x, y, newShot.scoringRing));
      if !saveSucceeds {
        // the shot shown before the request is rolled back: list and counter are as before
        return SaveFailed, request;
      }
      ShotTotalAppend(shots, newShot);
      shots, currentShot := shots + [newShot], currentShot + 1;
      cumulativeScore := cumulativeScore + h.score;
      if currentShot >= arrowCount {
        isComplete := true;
      }
      outcome := Saved;
    }

    /** "Remove last": deletes the last arrow on the server, then locally; `deleteSucceeds` is the server's answer. */
    method UndoLastShot(deleteSucceeds: bool) returns (outcome: UndoOutcome, request: Option<DeleteRequest>)
      requires Valid()
      modifies this
      ensures Valid() && currentRound == old(currentRound)
      ensures old(shots) == [] <==> outcome == NothingToUndo
      ensures outcome == NothingToUndo ==> request == None
      ensures outcome != NothingToUndo ==>
        request == Some(DeleteRequest(currentRound, old(shots)[|old(shots)| - 1].id))
        && outcome == (if deleteSucceeds then Undone else DeleteFailed)
      ensures outcome == Undone ==>
        && shots == old(shots)[..|old(shots)| - 1]
        && cumulativeScore == old(cumulativeScore) - Counted(old(shots)[|old(shots)| - 1])
        && !isComplete
      ensures outcome != Undone ==>
        shots == old(shots) && cumulativeScore == old(cumulativeScore) && isComplete == old(isComplete)
      ensures cumulativeScore - ShotTotal(shots) == old(cumulativeScore - ShotTotal(shots))
    {
      if |shots| == 0 {
        return NothingToUndo, None;
      }
      var lastShot := shots[|shots| - 1];
      var newShots := shots[..|shots| - 1];
      request := Some(DeleteRequest(currentRound, lastShot.id));
      if !deleteSucceeds {
        return DeleteFailed, request;
      }
      assert shots == newShots + [lastShot];
      ShotTotalAppend(newShots, lastShot);
      cumulativeScore := cumulativeScore - Counted(lastShot);
      shots, currentShot := newShots, currentShot - 1;
      isComplete := false;
      outcome := Undone;
    }

    /** "Next end": an empty end for the following round; the cumulative score is kept. */
    method NextEnd()
      requires Valid()
      modifies this
      ensures Valid()
      ensures shots == [] && currentShot == 0 && !isComplete
      ensures currentRound == old(currentRound) + 1 && cumulativeScore == old(cumulativeScore)
    {
      shots, currentShot, isComplete := [], 0, false;
      currentRound := currentRound + 1;
    }
  }

  // The row of score cells under the target

  datatype Label = Dash | MissMark | XMark | Points(n: int) | NoText

  /** The text in one score cell: a dash for an empty slot, nothing for a null score. */
  function CellLabel(shot: Option<Shot>): Label {
    match shot
    case None => Dash
    case Some(s) =>
      match s.score
      case None => NoText
      case Some(v) => if v == 0 then MissMark else if v == 10 && s.scoringRing == 0 then XMark else Points(v)
  }

  datatype TextColour = TextBlack | TextWhite | TextMuted

  function CellTextColour(shot: Option<Shot>): TextColour {
    match shot
    case None => TextMuted
    case Some(s) => if s.score == Some(0) || s.score == Some(1) || s.score == Some(2) then TextBlack else TextWhite
  }

  /** The cell colour: a miss is forced to white; an empty slot and a null score are gray. */
  function CellColour(shot: Option<Shot>): Colour {
    match shot
    case None => Gray
    case Some(s) =>
      match s.score
      case None => Gray
      case Some(v) => if v == 0 then White else BackgroundColour(v, s.scoringRing)
  }

  /**
   * For a shot the scorer made, the label is 'X' exactly in the X ring and 'M' exactly for a
   * miss, any other label is the score itself, the cell has the zone colour of the score, and
   * the text is black exactly on a white cell.
   */
  lemma ScoredHitCell(id: int, x: real, y: real, t: TargetType, dSq: real)
    ensures var h := ScoreAtDistance(t, dSq);
      var c := Some(ScoredShot(id, x, y, h));
      && (CellLabel(c) == XMark <==> h.scoringRing == 0)
      && (CellLabel(c) == MissMark <==> h.scoringRing == -1)
      && (CellLabel(c).Points? ==> CellLabel(c).n == h.score && 1 <= h.score <= 10)
      && CellColour(c) == ZoneColour(h.score)
      && (CellTextColour(c) == TextBlack <==> CellColour(c) == White)
  {
    ScoredHitColour(t, dSq);
    ScoreRange(t, dSq);
  }

  /** A loaded shot whose stored score is null shows no text, in white on the gray fallback. */
  lemma NullScoreCell(s: Shot)
    requires s.score == None
    ensures CellLabel(Some(s)) == NoText && CellColour(Some(s)) == Gray && CellTextColour(Some(s)) == TextWhite
    ensures Counted(s) == 0
  {
  }
}
