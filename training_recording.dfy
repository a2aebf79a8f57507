/**
 * Per-round score entry of the web client: one score per round, entered with -/+ buttons,
 * score buttons or a number field, saved to the server, with undo of the last score.
 *
 * The round counter is meant to name the round the next score belongs to: round
 * `min(n + 1, maxRounds)` (and at least 1) after n saved scores.  Saving keeps that
 * relation; the undo as written does not (see `UndoRoundAsWritten`), and the class uses
 * the corrected undo `UndoRound`.
 */
module TrainingRecording {
  import opened Common

  /** The server's answer to a save: `success` true, `success` false, or an exception. */
  datatype SaveReply = SaveOk | SaveRejected | SaveThrew

  /** The body of the save request. */
  datatype ScoreRequest = ScoreRequest(roundNumber: int, score: int, arrowNumber: int)

  datatype AddOutcome = OutOfRange | Recorded | AllRoundsRecorded | NotSaved

  const MinScore: int := 0
  const MaxScore: int := 10

  /** The round the next score belongs to after `n` saved scores. */
  function IntendedRound(n: nat, maxRounds: int): int {
    Max(1, Min(n + 1, maxRounds))
  }

  /** The "-" button: `Math.max(0, currentScore - 1)`. */
  function StepDown(s: int): (r: int)
    ensures MinScore <= r
    ensures s <= MaxScore ==> r <= MaxScore
    ensures s > MinScore ==> r == s - 1
  {
    Max(0, s - 1)
  }

  /** The "+" button: `Math.min(10, currentScore + 1)`. */
  function StepUp(s: int): (r: int)
    ensures r <= MaxScore
    ensures s >= MinScore ==> MinScore <= r
    ensures s < MaxScore ==> r == s + 1
  {
    Min(10, s + 1)
  }

  /** The round after a saved score: the next one, or the same one once the last round is reached. */
  function SavedRound(round: int, maxRounds: int): int {
    if round < maxRounds then round + 1 else round
  }

  /** The round after undo, as the source computes it: back one whenever above round 1. */
  function UndoRoundAsWritten(round: int): int {
    if round > 1 then round - 1 else round
  }

  /**
   * The round after undoing one of `n` saved scores, corrected: back one only when saving that
   * score had moved the round on, that is when fewer than `maxRounds` scores were saved.
   */
  function UndoRound(round: int, n: nat, maxRounds: int): int {
    if round > 1 && n < maxRounds then round - 1 else round
  }

  lemma SavedRoundKeepsRound(n: nat, maxRounds: int)
    ensures SavedRound(IntendedRound(n, maxRounds), maxRounds) == IntendedRound(n + 1, maxRounds)
  {
  }

  /** With the corrected undo, the round again names where the next score goes. */
  lemma UndoRoundKeepsRound(n: nat, maxRounds: int)
    requires n >= 1
    ensures UndoRound(IntendedRound(n, maxRounds), n, maxRounds) == IntendedRound(n - 1, maxRounds)
  {
  }

  /**
   * The undo as written loses a round: with two rounds, after both are saved the round stays
   * 2; undoing the second score moves the round back to 1, so the next save is sent as round 1
   * (arrow 2) although round 2 is the one missing.
   */
  lemma UndoRoundAsWrittenLosesRound()
    ensures IntendedRound(2, 2) == 2
    ensures SavedRound(SavedRound(IntendedRound(0, 2), 2), 2) == 2
    ensures UndoRoundAsWritten(2) == 1
    ensures IntendedRound(1, 2) == 2
  {
  }

  function TotalScore(roundScores: seq<int>): int {
    Sum(roundScores)
  }

  predicate AllInRange(s: seq<int>) {
    forall i :: 0 <= i < |s| ==> MinScore <= s[i] <= MaxScore
  }

  /** The shown total lies between 0 and 10 per completed round. */
  lemma TotalScoreBounds(roundScores: seq<int>)
    requires AllInRange(roundScores)
    ensures 0 <= TotalScore(roundScores) <= 10 * |roundScores|
  {
    SumBounds(roundScores, 0, 10);
  }

  class Recorder {
    const maxRounds: int
    var currentRound: int
    var currentScore: int
    var roundScores: seq<int>
    var isRecording: bool

    /** Saved scores are in range and the round names where the next score goes. */
    ghost predicate Valid()
      reads this
    {
      AllInRange(roundScores) && currentRound == IntendedRound(|roundScores|, maxRounds)
    }

    constructor (totalRounds: int)
      ensures Valid()
      ensures maxRounds == totalRounds && currentRound == 1 && currentScore == 0
      ensures roundScores == [] && !isRecording
    {
      maxRounds := totalRounds;
      currentRound, currentScore, roundScores, isRecording := 1, 0, [], false;
    }

    function CompletedRounds(): int
      reads this
    {
      |roundScores|
    }

    /** A score button or the number field sets the score directly. */
    method SetScore(score: int)
      modifies this`currentScore
      ensures currentScore == score
    {
      currentScore := score;
    }

    method DecrementScore()
      modifies this`currentScore
      ensures currentScore == StepDown(old(currentScore))
    {
      currentScore := StepDown(currentScore);
    }

    method IncrementScore()
      modifies this`currentScore
      ensures currentScore == StepUp(old(currentScore))
    {
      currentScore := StepUp(currentScore);
    }

    method StartRecording()
      modifies this`isRecording
      ensures isRecording
    {
      isRecording := true;
    }

    /** "Save score": checks the range, sends the score, and on success records it and moves on. */
    method AddScore(reply: SaveReply) returns (outcome: AddOutcome, request: Option<ScoreRequest>)
      requires Valid()
      modifies this
      ensures Valid()
      ensures old(currentScore) < MinScore || old(currentScore) > MaxScore <==> outcome == OutOfRange
      ensures outcome == OutOfRange ==> request == None
      ensures outcome != OutOfRange ==>
        request == Some(ScoreRequest(old(currentRound), old(currentScore), |old(roundScores)| + 1))
      ensures outcome in {Recorded, AllRoundsRecorded} <==> outcome != OutOfRange && reply == SaveOk
      ensures outcome in {Recorded, AllRoundsRecorded} ==>
        && roundScores == old(roundScores) + [old(currentScore)]
        && currentScore == 0
        && currentRound == SavedRound(old(currentRound), maxRounds)
        && (outcome == AllRoundsRecorded <==> old(currentRound) >= maxRounds)
        && isRecording == (old(isRecording) && outcome == Recorded)
      ensures !(outcome in {Recorded, AllRoundsRecorded}) ==>
        roundScores == old(roundScores) && currentRound == old(currentRound)
        && currentScore == old(currentScore) && isRecording == old(isRecording)
    {
      if currentScore < 0 || currentScore > 10 {
        return OutOfRange, None;
      }
      request := Some(ScoreRequest(currentRound, currentScore, |roundScores| + 1));
      if reply != SaveOk {
        return NotSaved, request;
      }
      roundScores := roundScores + [currentScore];
      currentScore := 0;
      if currentRound < maxRounds {
        currentRound := currentRound + 1;
        outcome := Recorded;
      } else {
        isRecording := false;
        outcome := AllRoundsRecorded;
      }
      SavedRoundKeepsRound(|old(roundScores)|, maxRounds);
    }

    /** "Undo": drops the last score (the corrected round update, see `UndoRound`). */
    method UndoLastScore()
      requires Valid()
      modifies this
      ensures Valid()
      ensures old(roundScores) == [] ==> roundScores == [] && currentRound == old(currentRound)
      ensures old(roundScores) != [] ==>
        roundScores == old(roundScores)[..|old(roundScores)| - 1]
        && currentRound == UndoRound(old(currentRound), |old(roundScores)|, maxRounds)
      ensures currentScore == old(currentScore) && isRecording == old(isRecording)
    {
      if |roundScores| > 0 {
        var n := |roundScores|;
        roundScores := roundScores[..n - 1];
        currentRound := UndoRound(currentRound, n, maxRounds);
        UndoRoundKeepsRound(n, maxRounds);
      }
    }
  }
}
