/**
 * The session overview of the web client: it probes rounds 1, 2, ... up to 100 for stored
 * scores, lists one end per round that has scores, and offers the round after the last one
 * as the next round to shoot.  The request for a round is the parameter `fetch`.
 */
module SessionDetail {
  import opened Common
  import opened ScoreRows

  const LastRound: int := 100
  /** How many empty rounds past the last recorded end the scan tolerates. */
  const GapLimit: int := 5

  datatype EndScore = EndScore(roundNumber: int, totalScore: int, arrowCount: int, maxScore: int)

  /** The scan's result: the ends found and the number of rounds requested. */
  datatype ScanResult = ScanResult(ends: seq<EndScore>, probes: int)

  /** A round counts as an end when its reply succeeded with at least one score. */
  predicate HasScores(reply: ScoresReply) {
    reply.Loaded? && |reply.rows| > 0
  }

  /** The end listed for a round: the sum of its scores (missing ones as 0) out of 10 per arrow. */
  function EndOf(round: int, rows: seq<StoredScore>): EndScore {
    EndScore(round, Sum(RowScores(rows)), |rows|, |rows| * 10)
  }

  /** An empty or failed round ends the scan once more than `GapLimit` rounds passed the last end. */
  predicate GapExceeded(ends: seq<EndScore>, round: int) {
    |ends| > 0 && round > ends[|ends| - 1].roundNumber + GapLimit
  }

  /** The scan from `round` on, with `ends` found before it. */
  function Scan(fetch: int -> ScoresReply, round: int, ends: seq<EndScore>): ScanResult
    decreases LastRound + 1 - round
  {
    if round > LastRound then ScanResult(ends, LastRound)
    else if HasScores(fetch(round)) then Scan(fetch, round + 1, ends + [EndOf(round, fetch(round).rows)])
    else if GapExceeded(ends, round) then ScanResult(ends, round)
    else Scan(fetch, round + 1, ends)
  }

  /** `loadEndScores`: the loop over rounds 1..100 with the gap cut-off. */
  method LoadEndScores(fetch: int -> ScoresReply) returns (ends: seq<EndScore>, probes: int)
    ensures ScanResult(ends, probes) == Scan(fetch, 1, [])
  {
    ends, probes := [], 0;
    var round := 1;
    while round <= LastRound
      invariant 1 <= round <= LastRound + 1 && probes == round - 1
      invariant Scan(fetch, round, ends) == Scan(fetch, 1, [])
    {
      var reply := fetch(round);
      probes := round;
      if reply.Loaded? && |reply.rows| > 0 {
        ends := ends + [EndOf(round, reply.rows)];
      } else if |ends| > 0 && round > ends[|ends| - 1].roundNumber + GapLimit {
        break;
      }
      round := round + 1;
    }
  }

  function RoundsOf(ends: seq<EndScore>): set<int> {
    set i | 0 <= i < |ends| :: ends[i].roundNumber
  }

  /**
   * The ends are in strictly increasing round order within 1..upTo, each is the end its
   * round's reply gives, and every round up to `upTo` with scores has its end.
   */
  predicate ListsScoredRounds(fetch: int -> ScoresReply, ends: seq<EndScore>, upTo: int) {
    && (forall i, j :: 0 <= i < j < |ends| ==> ends[i].roundNumber < ends[j].roundNumber)
    && (forall i :: 0 <= i < |ends| ==>
          && 1 <= ends[i].roundNumber <= upTo
          && HasScores(fetch(ends[i].roundNumber))
          && ends[i] == EndOf(ends[i].roundNumber, fetch(ends[i].roundNumber).rows))
    && (forall r :: 1 <= r <= upTo && HasScores(fetch(r)) ==> r in RoundsOf(ends))
  }

  /** What a scan that started at `round` guarantees about its result. */
  predicate ScanPost(fetch: int -> ScoresReply, round: int, res: ScanResult) {
    && ListsScoredRounds(fetch, res.ends, res.probes)
    && round - 1 <= res.probes <= LastRound
    && (res.ends == [] ==> res.probes == LastRound)
    && (res.probes < LastRound ==> GapExceeded(res.ends, res.probes) && !HasScores(fetch(res.probes)))
  }

  lemma {:induction false} ScanFrom(fetch: int -> ScoresReply, round: int, ends: seq<EndScore>)
    requires 1 <= round <= LastRound + 1
    requires ListsScoredRounds(fetch, ends, round - 1)
    ensures ScanPost(fetch, round, Scan(fetch, round, ends))
    decreases LastRound + 1 - round, 1
  {
    if round <= LastRound {
      if HasScores(fetch(round)) {
        ScanScoredRound(fetch, round, ends);
      } else if GapExceeded(ends, round) {
        SkipEmptyRound(fetch, round, ends);
      } else {
        ScanEmptyRound(fetch, round, ends);
      }
    }
  }

  /** The step of the scan at a round with scores. */
  lemma {:induction false} ScanScoredRound(fetch: int -> ScoresReply, round: int, ends: seq<EndScore>)
    requires 1 <= round <= LastRound && HasScores(fetch(round))
    requires ListsScoredRounds(fetch, ends, round - 1)
    ensures ScanPost(fetch, round, Scan(fetch, round, ends))
    decreases LastRound + 1 - round, 0
  {
    var more := ends + [EndOf(round, fetch(round).rows)];
    AddScoredRound(fetch, round, ends);
    ScanFrom(fetch, round + 1, more);
    LaterScanPost(fetch, round, Scan(fetch, round + 1, more));
  }

  /** The step of the scan at an empty or failed round within the gap limit. */
  lemma {:induction false} ScanEmptyRound(fetch: int -> ScoresReply, round: int, ends: seq<EndScore>)
    requires 1 <= round <= LastRound && !HasScores(fetch(round)) && !GapExceeded(ends, round)
    requires ListsScoredRounds(fetch, ends, round - 1)
    ensures ScanPost(fetch, round, Scan(fetch, round, ends))
    decreases LastRound + 1 - round, 0
  {
    SkipEmptyRound(fetch, round, ends);
    ScanFrom(fetch, round + 1, ends);
    LaterScanPost(fetch, round, Scan(fetch, round + 1, ends));
  }

  lemma LaterScanPost(fetch: int -> ScoresReply, round: int, res: ScanResult)
    requires ScanPost(fetch, round + 1, res)
    ensures ScanPost(fetch, round, res)
  {
  }

  lemma AddScoredRound(fetch: int -> ScoresReply, round: int, ends: seq<EndScore>)
    requires 1 <= round && HasScores(fetch(round))
    requires ListsScoredRounds(fetch, ends, round - 1)
    ensures ListsScoredRounds(fetch, ends + [EndOf(round, fetch(round).rows)], round)
  {
    var e := ends + [EndOf(round, fetch(round).rows)];
    RoundsOfAppend(ends, EndOf(round, fetch(round).rows));
    assert forall i :: 0 <= i < |ends| ==> e[i] == ends[i];
  }

  lemma RoundsOfAppend(ends: seq<EndScore>, x: EndScore)
    ensures RoundsOf(ends + [x]) == RoundsOf(ends) + {x.roundNumber}
  {
    var e := ends + [x];
    assert forall i :: 0 <= i < |ends| ==> e[i] == ends[i];
    assert e[|ends|] == x;
  }

  lemma SkipEmptyRound(fetch: int -> ScoresReply, round: int, ends: seq<EndScore>)
    requires !HasScores(fetch(round))
    requires ListsScoredRounds(fetch, ends, round - 1)
    ensures ListsScoredRounds(fetch, ends, round)
  {
  }

  /** The listed ends of rounds before `r`: what the scan had found when it reached round `r`. */
  function EndsBelow(ends: seq<EndScore>, r: int): (below: seq<EndScore>)
    ensures |below| <= |ends|
    ensures forall i :: 0 <= i < |below| ==> below[i].roundNumber < r
  {
    if ends == [] then []
    else
      var last := ends[|ends| - 1];
      EndsBelow(ends[..|ends| - 1], r) + (if last.roundNumber < r then [last] else [])
  }

  /** `all` starts with `ends` and lists nothing before `round` after them. */
  predicate Extends(all: seq<EndScore>, ends: seq<EndScore>, round: int) {
    && |ends| <= |all| && all[..|ends|] == ends
    && forall i :: |ends| <= i < |all| ==> all[i].roundNumber >= round
  }

  /** No empty or failed round in `from..res.probes - 1` met the gap limit at the time it was probed. */
  predicate NoEarlierStop(fetch: int -> ScoresReply, res: ScanResult, from: int) {
    forall r :: from <= r < res.probes && !HasScores(fetch(r)) ==> !GapExceeded(EndsBelow(res.ends, r), r)
  }

  /** What the scan had found when it reached a round is what its result lists before that round. */
  lemma {:induction false} EndsBelowPrefix(all: seq<EndScore>, ends: seq<EndScore>, round: int)
    requires Extends(all, ends, round)
    requires forall i :: 0 <= i < |ends| ==> ends[i].roundNumber < round
    ensures EndsBelow(all, round) == ends
    decreases |all|
  {
    if |all| == |ends| {
      assert all == all[..|ends|];
      EndsBelowAll(all, round);
    } else {
      var init := all[..|all| - 1];
      assert init[..|ends|] == all[..|ends|];
      EndsBelowPrefix(init, ends, round);
    }
  }

  lemma {:induction false} EndsBelowAll(ends: seq<EndScore>, round: int)
    requires forall i :: 0 <= i < |ends| ==> ends[i].roundNumber < round
    ensures EndsBelow(ends, round) == ends
    decreases |ends|
  {
    if ends != [] {
      var init := ends[..|ends| - 1];
      EndsBelowAll(init, round);
      assert init + [ends[|ends| - 1]] == ends;
    }
  }

  /**
   * The scan stops at the first empty or failed round that is more than `GapLimit` past the
   * last end found so far: every earlier empty round was within the limit.
   */
  lemma {:induction false} ScanStopsFirst(fetch: int -> ScoresReply, round: int, ends: seq<EndScore>)
    requires 1 <= round <= LastRound + 1
    requires ListsScoredRounds(fetch, ends, round - 1)
    ensures Extends(Scan(fetch, round, ends).ends, ends, round)
    ensures NoEarlierStop(fetch, Scan(fetch, round, ends), round)
    decreases LastRound + 1 - round, 1
  {
    if round <= LastRound {
      if HasScores(fetch(round)) {
        StopsFirstScored(fetch, round, ends);
      } else if !GapExceeded(ends, round) {
        StopsFirstEmpty(fetch, round, ends);
      }
    }
  }

  lemma {:induction false} StopsFirstScored(fetch: int -> ScoresReply, round: int, ends: seq<EndScore>)
    requires 1 <= round <= LastRound && HasScores(fetch(round))
    requires ListsScoredRounds(fetch, ends, round - 1)
    ensures Extends(Scan(fetch, round, ends).ends, ends, round)
    ensures NoEarlierStop(fetch, Scan(fetch, round, ends), round)
    decreases LastRound + 1 - round, 0
  {
    var e := EndOf(round, fetch(round).rows);
    AddScoredRound(fetch, round, ends);
    ScanStopsFirst(fetch, round + 1, ends + [e]);
    var all := Scan(fetch, round + 1, ends + [e]).ends;
    PrefixOfExtended(all, ends, e, round);
  }

  lemma PrefixOfExtended(all: seq<EndScore>, ends: seq<EndScore>, e: EndScore, round: int)
    requires Extends(all, ends + [e], round + 1) && e.roundNumber == round
    ensures Extends(all, ends, round)
  {
    assert all[..|ends|] == all[..|ends| + 1][..|ends|];
    assert all[|ends|] == all[..|ends| + 1][|ends|];
  }

  lemma {:induction false} StopsFirstEmpty(fetch: int -> ScoresReply, round: int, ends: seq<EndScore>)
    requires 1 <= round <= LastRound && !HasScores(fetch(round)) && !GapExceeded(ends, round)
    requires ListsScoredRounds(fetch, ends, round - 1)
    ensures Extends(Scan(fetch, round, ends).ends, ends, round)
    ensures NoEarlierStop(fetch, Scan(fetch, round, ends), round)
    decreases LastRound + 1 - round, 0
  {
    SkipEmptyRound(fetch, round, ends);
    ScanStopsFirst(fetch, round + 1, ends);
    var res := Scan(fetch, round + 1, ends);
    EndsBelowPrefix(res.ends, ends, round);
  }

  /**
   * What the scan lists: in strictly increasing round order exactly the rounds among those it
   * requested that have scores, never past round 100; all 100 rounds when nothing is found;
   * and it stops only at the first empty or failed round more than 5 past the last end found so far.
   */
  lemma ScanFacts(fetch: int -> ScoresReply)
    ensures var res := Scan(fetch, 1, []);
      && ListsScoredRounds(fetch, res.ends, res.probes)
      && 0 <= res.probes <= LastRound
      && (res.ends == [] ==> res.probes == LastRound)
      && (res.probes < LastRound ==>
            GapExceeded(res.ends, res.probes) && !HasScores(fetch(res.probes)))
      && (forall r :: 1 <= r < res.probes && !HasScores(fetch(r)) ==>
            !GapExceeded(EndsBelow(res.ends, r), r))
  {
    ScanFrom(fetch, 1, []);
    ScanStopsFirst(fetch, 1, []);
    assert ScanPost(fetch, 1, Scan(fetch, 1, []));
  }

  /** `handleAddRound`: one past the largest listed round, or 1 when there is none. */
  function NextRound(ends: seq<EndScore>): (r: int)
    ensures forall i :: 0 <= i < |ends| ==> ends[i].roundNumber < r
    ensures ends == [] ==> r == 1
    ensures ends != [] ==> exists i :: 0 <= i < |ends| && r == ends[i].roundNumber + 1
  {
    if ends == [] then 1
    else
      var init := ends[..|ends| - 1];
      var last := ends[|ends| - 1].roundNumber + 1;
      if init == [] then last
      else
        var r := NextRound(init);
        assert forall i :: 0 <= i < |init| ==> init[i] == ends[i];
        Max(r, last)
  }

  /** For a scan's list, the next round follows its last end and is at most 101. */
  lemma NextRoundAfterScan(fetch: int -> ScoresReply)
    ensures var res := Scan(fetch, 1, []);
      res.ends != [] ==> NextRound(res.ends) == res.ends[|res.ends| - 1].roundNumber + 1 <= LastRound + 1
  {
    ScanFacts(fetch);
    var ends := Scan(fetch, 1, []).ends;
    if ends != [] {
      var r := NextRound(ends);
      var k := |ends| - 1;
      assert ends[k].roundNumber < r;
      var i :| 0 <= i < |ends| && r == ends[i].roundNumber + 1;
      assert i == k;
    }
  }

  function EndTotals(ends: seq<EndScore>): (s: seq<int>)
    ensures |s| == |ends|
    ensures forall i :: 0 <= i < |ends| ==> s[i] == ends[i].totalScore
  {
    if ends == [] then [] else EndTotals(ends[..|ends| - 1]) + [ends[|ends| - 1].totalScore]
  }

  function EndMaxima(ends: seq<EndScore>): (s: seq<int>)
    ensures |s| == |ends|
    ensures forall i :: 0 <= i < |ends| ==> s[i] == ends[i].maxScore
  {
    if ends == [] then [] else EndMaxima(ends[..|ends| - 1]) + [ends[|ends| - 1].maxScore]
  }

  function TotalScore(ends: seq<EndScore>): int { Sum(EndTotals(ends)) }
  function TotalMaxScore(ends: seq<EndScore>): int { Sum(EndMaxima(ends)) }

  predicate ScoresInRange(rows: seq<StoredScore>) {
    forall i :: 0 <= i < |rows| ==> rows[i].score.Some? ==> 0 <= rows[i].score.value <= 10
  }

  /** An end's total lies between 0 and its maximum when every stored score is in [0, 10]. */
  lemma EndWithinMax(round: int, rows: seq<StoredScore>)
    requires ScoresInRange(rows)
    ensures 0 <= EndOf(round, rows).totalScore <= EndOf(round, rows).maxScore
  {
    SumBounds(RowScores(rows), 0, 10);
  }

  /** The session total never exceeds the session maximum when every stored score is in [0, 10]. */
  lemma TotalWithinMax(fetch: int -> ScoresReply)
    requires forall r :: fetch(r).Loaded? ==> ScoresInRange(fetch(r).rows)
    ensures var ends := Scan(fetch, 1, []).ends;
      0 <= TotalScore(ends) <= TotalMaxScore(ends)
  {
    ScanFacts(fetch);
    var ends := Scan(fetch, 1, []).ends;
    forall i | 0 <= i < |ends|
      ensures 0 <= ends[i].totalScore <= ends[i].maxScore
    {
      EndWithinMax(ends[i].roundNumber, fetch(ends[i].roundNumber).rows);
    }
    SumMonotone(EndTotals(ends), EndMaxima(ends));
    SumNonNegative(EndTotals(ends));
  }
}
