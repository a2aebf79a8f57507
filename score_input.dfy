/**
 * The competition score form of the web client: a player name, an organization, a
 * competition type and a free list of arrow scores, submitted as one record appended to the
 * locally stored list of records.
 */
module ScoreInput {
  import opened Common
  import opened JsText

  /**
   * One submitted record.  `id` is the decimal text of the submission time and `timestamp`
   * the submission time itself, in milliseconds.
   */
  datatype ScoreRecord = ScoreRecord(
    id: string,
    playerName: string,
    organization: string,
    scores: seq<int>,
    totalScore: int,
    averageScore: real,
    timestamp: int,
    competitionType: string)

  predicate AllInRange(s: seq<int>) {
    forall i :: 0 <= i < |s| ==> 0 <= s[i] <= 10
  }

  /** The score the text field holds, if `parseInt` reads an integer in [0, 10] from it. */
  function AcceptedScore(text: string): (r: Option<int>)
    ensures r.Some? <==> ParseInt(text).Some? && 0 <= ParseInt(text).value <= 10
    ensures r.Some? ==> ParseInt(text) == Some(r.value)
  {
    match ParseInt(text)
    case Some(v) => if 0 <= v <= 10 then Some(v) else None
    case None => None
  }

  /** The decimal text of a score in [0, 10] is accepted as that score, also after leading blanks. */
  lemma AcceptedScoreDecimal(n: nat, blanks: string)
    requires n <= 10 && AllSpace(blanks)
    ensures AcceptedScore(blanks + NatToString(n)) == Some(n)
  {
    ParseIntDecimal(n);
    ParseIntSkipsSpace(blanks, NatToString(n));
  }

  /** Reading stops at the decimal point, so a fraction such as "7.5" is accepted as its whole part. */
  lemma AcceptedScoreFraction(n: nat, decimals: string)
    requires n <= 10
    ensures AcceptedScore(NatToString(n) + ['.'] + decimals) == Some(n)
  {
    ParseIntStopsAtNonDigit(n, '.', decimals);
  }

  /** `parseInt` reads a `0x` prefix as radix 16, so "0xA" is accepted as 10 and "0xB" is refused. */
  lemma AcceptedScoreHex(d: string)
    requires d != [] && forall k :: 0 <= k < |d| ==> IsHexDigit(d[k])
    ensures AcceptedScore("0x" + d) == if HexValue(d) <= 10 then Some(HexValue(d)) else None
  {
    ParseIntHex(d);
  }

  /** Numbers outside [0, 10] are refused: above 10, and every negative number. */
  lemma AcceptedScoreOutOfRange(n: nat)
    ensures n > 10 ==> AcceptedScore(NatToString(n)) == None
    ensures n >= 1 ==> AcceptedScore("-" + NatToString(n)) == None
  {
    ParseIntDecimal(n);
  }

  /** Texts without a single digit, the empty text among them, are refused. */
  lemma AcceptedScoreNoDigits(text: string)
    requires forall k :: 0 <= k < |text| ==> !IsDigit(text[k])
    ensures AcceptedScore(text) == None
  {
    ParseIntNoDigits(text);
  }

  /** `scores.filter((_, i) => i !== index)`. */
  function WithoutIndex(s: seq<int>, index: int): (r: seq<int>)
    ensures 0 <= index < |s| ==> r == s[..index] + s[index + 1..]
    ensures !(0 <= index < |s|) ==> r == s
  {
    if s == [] then []
    else
      var init := s[..|s| - 1];
      var r := WithoutIndex(init, index) + (if index == |s| - 1 then [] else [s[|s| - 1]]);
      assert 0 <= index < |init| ==> init[..index] == s[..index] && init[index + 1..] + [s[|s| - 1]] == s[index + 1..];
      assert index == |s| - 1 ==> init == s[..index];
      r
  }

  /** Removing a position takes exactly that one score out of the list. */
  lemma WithoutIndexRemovesOne(s: seq<int>, index: int)
    requires 0 <= index < |s|
    ensures multiset(WithoutIndex(s, index)) + multiset{s[index]} == multiset(s)
    ensures |WithoutIndex(s, index)| == |s| - 1
  {
    var r := WithoutIndex(s, index);
    var front, back := s[..index], s[index + 1..];
    var x := s[index];
    assert r == front + back;
    assert s == (front + [x]) + back;
    assert multiset(r) == multiset(front) + multiset(back);
    assert multiset(s) == multiset(front + [x]) + multiset(back);
    assert multiset(front + [x]) == multiset(front) + multiset{x};
  }

  /** `Math.round(x * 10) / 10`, with `Math.round(y)` the floor of `y + 0.5`. */
  function RoundTenth(x: real): real {
    (x * 10.0 + 0.5).Floor as real / 10.0
  }

  /** Rounding to one decimal moves a value by at most 0.05 and keeps [0, 10]. */
  lemma RoundTenthClose(x: real)
    ensures x - 0.05 < RoundTenth(x) <= x + 0.05
    ensures 0.0 <= x <= 10.0 ==> 0.0 <= RoundTenth(x) <= 10.0
  {
    var f := (x * 10.0 + 0.5).Floor;
    assert f as real <= x * 10.0 + 0.5 < f as real + 1.0;
    if 0.0 <= x <= 10.0 {
      assert 0 <= f <= 100;
    }
  }

  /** The shown average: 0 for no scores, else the mean rounded to one decimal. */
  function Average(scores: seq<int>): real {
    if |scores| == 0 then 0.0 else RoundTenth(Sum(scores) as real / |scores| as real)
  }

  lemma AverageFacts(scores: seq<int>)
    requires AllInRange(scores)
    ensures 0.0 <= Average(scores) <= 10.0
    ensures scores == [] ==> Average(scores) == 0.0
    ensures scores != [] ==>
      var mean := Sum(scores) as real / |scores| as real;
      mean - 0.05 < Average(scores) <= mean + 0.05
  {
    if scores != [] {
      SumBounds(scores, 0, 10);
      MeanBounds(Sum(scores), |scores|);
      RoundTenthClose(Sum(scores) as real / |scores| as real);
    }
  }

  lemma MeanBounds(total: int, n: nat)
    requires 0 < n && 0 <= total <= 10 * n
    ensures 0.0 <= total as real / n as real <= 10.0
  {
    var mean := total as real / n as real;
    assert mean * n as real == total as real;
  }

  /** The record a submission stores. */
  function MakeRecord(now: int, name: string, organization: string, scores: seq<int>, kind: string): ScoreRecord {
    ScoreRecord(IntToString(now), Trim(name), Trim(organization), scores, Sum(scores), Average(scores), now, kind)
  }

  /**
   * A stored record keeps the list, its total, and an average in [0, 10] within 0.05 of the
   * total over the count, and the total is between 0 and 10 per arrow.
   */
  lemma MakeRecordFacts(now: int, name: string, organization: string, scores: seq<int>, kind: string)
    requires AllInRange(scores) && scores != []
    requires Trim(name) != [] && Trim(organization) != []
    ensures var r := MakeRecord(now, name, organization, scores, kind);
      && r.scores == scores
      && 0 <= r.totalScore <= 10 * |scores|
      && 0.0 <= r.averageScore <= 10.0
      && r.totalScore as real / |scores| as real - 0.05 < r.averageScore <= r.totalScore as real / |scores| as real + 0.05
      && r.playerName != [] && !IsSpace(r.playerName[0]) && !IsSpace(r.playerName[|r.playerName| - 1])
      && r.timestamp == now && r.competitionType == kind
  {
    SumBounds(scores, 0, 10);
    AverageFacts(scores);
  }

  datatype SubmitOutcome = MissingFields | Submitted(record: ScoreRecord)

  class ScoreForm {
    var playerName: string
    var organization: string
    var competitionType: string
    var scores: seq<int>
    var currentScore: string
    var loading: bool
    /** The records already stored in the browser. */
    var stored: seq<ScoreRecord>

    /** Every listed score lies in [0, 10]. */
    ghost predicate Valid()
      reads this
    {
      AllInRange(scores)
    }

    constructor (saved: seq<ScoreRecord>)
      ensures Valid()
      ensures playerName == "" && organization == "" && competitionType == "practice"
      ensures scores == [] && currentScore == "" && !loading && stored == saved
    {
      playerName, organization, competitionType := "", "", "practice";
      scores, currentScore, loading, stored := [], "", false, saved;
    }

    /** "Add": appends the parsed score and clears the field, or changes nothing. */
    method AddScore() returns (accepted: bool)
      requires Valid()
      modifies this`scores, this`currentScore
      ensures Valid()
      ensures accepted <==> AcceptedScore(old(currentScore)).Some?
      ensures accepted ==> scores == old(scores) + [AcceptedScore(old(currentScore)).value] && currentScore == ""
      ensures !accepted ==> scores == old(scores) && currentScore == old(currentScore)
    {
      var score := ParseInt(currentScore);
      if score.Some? && 0 <= score.value <= 10 {
        scores := scores + [score.value];
        currentScore := "";
        accepted := true;
      } else {
        accepted := false;
      }
    }

    /** The remove button of the score at `index`. */
    method RemoveScore(index: int)
      requires Valid()
      modifies this`scores
      ensures Valid()
      ensures scores == WithoutIndex(old(scores), index)
    {
      scores := WithoutIndex(scores, index);
    }

    /**
     * "Save": refuses a blank name or organization and an empty list; otherwise appends the
     * record to the stored list and waits for the deferred reset.
     */
    method Submit(now: int) returns (outcome: SubmitOutcome)
      requires Valid()
      modifies this`loading, this`stored
      ensures outcome == MissingFields <==>
        Trim(playerName) == [] || Trim(organization) == [] || scores == []
      ensures outcome == MissingFields ==> stored == old(stored) && loading == old(loading)
      ensures outcome.Submitted? ==>
        && outcome.record == MakeRecord(now, playerName, organization, scores, competitionType)
        && stored == old(stored) + [outcome.record]
        && loading
    {
      if Trim(playerName) == [] || Trim(organization) == [] || |scores| == 0 {
        return MissingFields;
      }
      loading := true;
      var record := MakeRecord(now, playerName, organization, scores, competitionType);
      stored := stored + [record];
      outcome := Submitted(record);
    }

    /** The reset one second after a submission; the competition type is kept. */
    method FinishSubmit()
      modifies this`playerName, this`organization, this`scores, this`currentScore, this`loading
      ensures Valid()
      ensures playerName == "" && organization == "" && scores == [] && currentScore == "" && !loading
    {
      playerName, organization, scores, currentScore, loading := "", "", [], "", false;
    }
  }
}
