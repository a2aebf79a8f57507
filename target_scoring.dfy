/**
 * Scoring of a click on the 800 x 800 target canvas of the web client.
 *
 * Each target type compares a normalised distance (distance / radius) against an
 * ascending chain of thresholds and returns the first ring whose threshold holds;
 * beyond the last threshold the arrow is a miss.  Distances are kept squared so that
 * no square root is needed: for a non-negative distance d, a positive radius R and a
 * positive threshold t,  d / R <= t  exactly when  d * d <= t * t * R * R.
 */
module TargetScoring {
  import opened Common

  datatype TargetType = Wa6Ring | Wa5Ring | VerticalThreeSpot | HorizontalThreeSpot | FullFace

  /** The `switch (session.target_type)`: unknown and missing names fall through to the full face. */
  function TargetTypeOf(name: Option<string>): (t: TargetType)
    ensures t == Wa6Ring <==> name == Some("wa_6_ring")
    ensures t == Wa5Ring <==> name == Some("wa_5_ring")
    ensures t == VerticalThreeSpot <==> name == Some("wa_vertical_3_spot")
    ensures t == HorizontalThreeSpot <==> name == Some("wa_horizontal_3_spot")
  {
    match name
    case Some("wa_6_ring") => Wa6Ring
    case Some("wa_5_ring") => Wa5Ring
    case Some("wa_vertical_3_spot") => VerticalThreeSpot
    case Some("wa_horizontal_3_spot") => HorizontalThreeSpot
    case _ => FullFace
  }

  /** The `{ score, scoringRing }` pair; ring 0 is the X ring and -1 a miss. */
  datatype Hit = Hit(score: int, scoringRing: int)

  const MissHit := Hit(0, -1)

  const CanvasSize: real := 800.0
  const FaceCentre: real := CanvasSize / 2.0
  const FaceRadius: real := CanvasSize / 2.0
  /** Radius of one spot of a 3-spot face: 0.22 of the full radius, that is 88. */
  const SpotRadius: real := FaceRadius * 0.22

  const SixRingThresholds: seq<real> := [0.084, 0.166, 0.334, 0.5, 0.666, 0.917, 1.0]
  const FiveRingThresholds: seq<real> := [0.1, 0.2, 0.4, 0.6, 0.8, 1.0, 1.2]
  const SpotThresholds: seq<real> := [0.084, 0.166, 0.334, 0.5, 0.666, 0.834, 1.0]
  const FullFaceThresholds: seq<real> :=
    [0.05, 0.1, 0.21, 0.31, 0.415, 0.51, 0.61, 0.71, 0.81, 0.91, 1.0]

  function Thresholds(t: TargetType): seq<real> {
    match t
    case Wa6Ring => SixRingThresholds
    case Wa5Ring => FiveRingThresholds
    case VerticalThreeSpot => SpotThresholds
    case HorizontalThreeSpot => SpotThresholds
    case FullFace => FullFaceThresholds
  }

  predicate IsSpotFace(t: TargetType) { t == VerticalThreeSpot || t == HorizontalThreeSpot }

  /** Squared radius the normalised distance is measured against. */
  function RadiusSq(t: TargetType): real {
    if IsSpotFace(t) then SpotRadius * SpotRadius else FaceRadius * FaceRadius
  }

  /** Every table of the source: ring 0 (X) and ring 1 score 10, ring k >= 1 scores 11 - k. */
  function RingScore(ring: nat): int {
    if ring == 0 then 10 else 11 - ring
  }

  predicate Within(th: seq<real>, j: nat, dSq: real, rSq: real)
    requires j < |th|
  {
    dSq <= th[j] * th[j] * rSq
  }

  /** The if-chain: the first ring (from `i` on) whose threshold holds, or -1 when none does. */
  function FirstRing(th: seq<real>, dSq: real, rSq: real, i: nat): (r: int)
    requires i <= |th|
    ensures -1 <= r < |th|
    ensures r == -1 <==> forall j :: i <= j < |th| ==> !Within(th, j, dSq, rSq)
    ensures r >= 0 ==> i <= r && Within(th, r, dSq, rSq)
    ensures r >= 0 ==> forall j :: i <= j < r ==> !Within(th, j, dSq, rSq)
    decreases |th| - i
  {
    if i == |th| then -1
    else if Within(th, i, dSq, rSq) then i
    else FirstRing(th, dSq, rSq, i + 1)
  }

  function Classify(th: seq<real>, dSq: real, rSq: real): Hit {
    var ring := FirstRing(th, dSq, rSq, 0);
    if ring < 0 then MissHit else Hit(RingScore(ring), ring)
  }

  /** The score of an arrow whose squared distance from the (nearest) centre is `dSq`. */
  function ScoreAtDistance(t: TargetType, dSq: real): Hit {
    Classify(Thresholds(t), dSq, RadiusSq(t))
  }

  function DistSq(x: real, y: real, cx: real, cy: real): (d: real)
    ensures d >= 0.0
  {
    (x - cx) * (x - cx) + (y - cy) * (y - cy)
  }

  /** Spot centres, as fractions of the canvas, in the order the source lists them. */
  function SpotCentres(vertical: bool): seq<(real, real)> {
    if vertical then
      [(FaceCentre, CanvasSize * 0.25), (FaceCentre, FaceCentre), (FaceCentre, CanvasSize * 0.75)]
    else
      [(CanvasSize * 0.25, FaceCentre), (FaceCentre, FaceCentre), (CanvasSize * 0.75, FaceCentre)]
  }

  /** Squared distance from (x, y) to the nearest of the centres `cs`. */
  function MinDistSq(cs: seq<(real, real)>, x: real, y: real): (m: real)
    requires cs != []
    ensures forall k :: 0 <= k < |cs| ==> m <= DistSq(x, y, cs[k].0, cs[k].1)
    ensures exists k :: 0 <= k < |cs| && m == DistSq(x, y, cs[k].0, cs[k].1)
  {
    var last := DistSq(x, y, cs[|cs| - 1].0, cs[|cs| - 1].1);
    if |cs| == 1 then last
    else
      var rest := MinDistSq(cs[..|cs| - 1], x, y);
      if last < rest then last else rest
  }

  /** The distance the chosen face measures from: the face centre, or the nearest spot centre. */
  function TargetDistSq(t: TargetType, x: real, y: real): real {
    if IsSpotFace(t) then MinDistSq(SpotCentres(t == VerticalThreeSpot), x, y)
    else DistSq(x, y, FaceCentre, FaceCentre)
  }

  /** `calculateScore(x, y)` as a value. */
  function Score(t: TargetType, x: real, y: real): Hit {
    ScoreAtDistance(t, TargetDistSq(t, x, y))
  }

  /** The loop that finds the nearest spot centre, starting from `Infinity` (here: nothing found yet). */
  method NearestSpotDistSq(cs: seq<(real, real)>, x: real, y: real) returns (found: bool, best: real)
    ensures found <==> cs != []
    ensures found ==> forall k :: 0 <= k < |cs| ==> best <= DistSq(x, y, cs[k].0, cs[k].1)
    ensures found ==> exists k :: 0 <= k < |cs| && best == DistSq(x, y, cs[k].0, cs[k].1)
  {
    found, best := false, 0.0;
    for i := 0 to |cs|
      invariant found <==> i > 0
      invariant found ==> forall k :: 0 <= k < i ==> best <= DistSq(x, y, cs[k].0, cs[k].1)
      invariant found ==> exists k :: 0 <= k < i && best == DistSq(x, y, cs[k].0, cs[k].1)
    {
      var d := DistSq(x, y, cs[i].0, cs[i].1);
      if !found || d < best {
        found, best := true, d;
      }
    }
  }

  lemma MinIsUnique(cs: seq<(real, real)>, x: real, y: real, m: real)
    requires cs != []
    requires forall k :: 0 <= k < |cs| ==> m <= DistSq(x, y, cs[k].0, cs[k].1)
    requires exists k :: 0 <= k < |cs| && m == DistSq(x, y, cs[k].0, cs[k].1)
    ensures m == MinDistSq(cs, x, y)
  {
  }

  /** `calculateScore`: the click at canvas point (x, y) on a face of type `t`. */
  method CalculateScore(t: TargetType, x: real, y: real) returns (h: Hit)
    ensures h == Score(t, x, y)
  {
    var dSq: real;
    if IsSpotFace(t) {
      var cs := SpotCentres(t == VerticalThreeSpot);
      var found;
      found, dSq := NearestSpotDistSq(cs, x, y);
      MinIsUnique(cs, x, y, dSq);
    } else {
      dSq := DistSq(x, y, FaceCentre, FaceCentre);
    }
    h := ScoreAtDistance(t, dSq);
  }

  // ---------------------------------------------------------------------------------------
  // Properties of the score tables

  /** Every result is a score in 0..10 and a ring in -1..10, and the ring is -1 exactly for a 0. */
  lemma ScoreRange(t: TargetType, dSq: real)
    ensures var h := ScoreAtDistance(t, dSq);
      && 0 <= h.score <= 10 && -1 <= h.scoringRing <= 10
      && (h.scoringRing == -1 <==> h.score == 0)
      && (h.scoringRing == 0 ==> h.score == 10)
      && (h.score == 10 ==> h.scoringRing == 0 || h.scoringRing == 1)
  {
    var ring := FirstRing(Thresholds(t), dSq, RadiusSq(t), 0);
    assert ring < |Thresholds(t)| <= 11;
  }

  /** On the full face (also the default) ring k >= 1 scores exactly 11 - k. */
  lemma FullFaceRingScores(dSq: real)
    ensures var h := ScoreAtDistance(FullFace, dSq);
      1 <= h.scoringRing <= 10 ==> h.score == 11 - h.scoringRing
  {
  }

  /** Moving further out never raises the score, whatever the table. */
  lemma {:induction false} FirstRingMonotone(th: seq<real>, d1: real, d2: real, rSq: real)
    requires d1 <= d2
    ensures var r1, r2 := FirstRing(th, d1, rSq, 0), FirstRing(th, d2, rSq, 0);
      r2 >= 0 ==> 0 <= r1 <= r2
  {
    var r1, r2 := FirstRing(th, d1, rSq, 0), FirstRing(th, d2, rSq, 0);
    if r2 >= 0 {
      assert Within(th, r2, d1, rSq);
    }
  }

  lemma ScoreMonotone(t: TargetType, d1: real, d2: real)
    requires d1 <= d2
    ensures ScoreAtDistance(t, d1).score >= ScoreAtDistance(t, d2).score
  {
    FirstRingMonotone(Thresholds(t), d1, d2, RadiusSq(t));
    ScoreRange(t, d1);
  }

  predicate Ascending(th: seq<real>) {
    forall j :: 0 <= j < |th| - 1 ==> 0.0 < th[j] < th[j + 1]
  }

  lemma TablesAscending(t: TargetType)
    ensures Ascending(Thresholds(t)) && |Thresholds(t)| > 0
  {
    match t
    case Wa6Ring => assert Ascending(SixRingThresholds);
    case Wa5Ring => assert Ascending(FiveRingThresholds);
    case VerticalThreeSpot => assert Ascending(SpotThresholds);
    case HorizontalThreeSpot => assert Ascending(SpotThresholds);
    case FullFace => assert Ascending(FullFaceThresholds);
  }

  /** Within an ascending chain, being outside the last ring means being outside every ring. */
  lemma {:induction false} OutsideLastIsOutsideAll(th: seq<real>, dSq: real, rSq: real)
    requires Ascending(th) && th != [] && rSq > 0.0
    requires !Within(th, |th| - 1, dSq, rSq)
    ensures forall j :: 0 <= j < |th| ==> !Within(th, j, dSq, rSq)
  {
    forall j | 0 <= j < |th|
      ensures !Within(th, j, dSq, rSq)
    {
      AscendingSquares(th, j, |th| - 1);
      assert th[j] * th[j] * rSq <= th[|th| - 1] * th[|th| - 1] * rSq;
    }
  }

  lemma {:induction false} AscendingSquares(th: seq<real>, i: nat, j: nat)
    requires Ascending(th) && i <= j < |th|
    ensures 0.0 <= th[i] * th[i] <= th[j] * th[j]
    decreases j - i
  {
    if i < j {
      AscendingSquares(th, i + 1, j);
      assert 0.0 < th[i] < th[i + 1];
      assert th[i] * th[i] <= th[i + 1] * th[i];
      assert th[i + 1] * th[i] <= th[i + 1] * th[i + 1];
    } else if j + 1 < |th| {
      assert 0.0 < th[j];
    } else if j > 0 {
      assert 0.0 < th[j - 1] < th[j];
    } else {
      assert th[i] * th[i] >= 0.0;
    }
  }

  /** The outermost threshold of each face: 1.2 on the WA 5-ring face, 1.0 on every other. */
  function OuterLimit(t: TargetType): real {
    if t == Wa5Ring then 1.2 else 1.0
  }

  /** A miss happens exactly beyond the outer limit of the face. */
  lemma MissBoundary(t: TargetType, dSq: real)
    ensures ScoreAtDistance(t, dSq).score == 0 <==> dSq > OuterLimit(t) * OuterLimit(t) * RadiusSq(t)
  {
    var th, rSq := Thresholds(t), RadiusSq(t);
    TablesAscending(t);
    LastThreshold(t);
    if dSq > OuterLimit(t) * OuterLimit(t) * rSq {
      assert !Within(th, |th| - 1, dSq, rSq);
      OutsideLastIsOutsideAll(th, dSq, rSq);
    } else {
      assert Within(th, |th| - 1, dSq, rSq);
    }
    ScoreRange(t, dSq);
  }

  /** The last threshold of each table is its outer limit, against a positive radius. */
  lemma LastThreshold(t: TargetType)
    ensures |Thresholds(t)| > 0 && Thresholds(t)[|Thresholds(t)| - 1] == OuterLimit(t)
    ensures RadiusSq(t) > 0.0
  {
  }

  /** On the WA 5-ring face a normalised distance in (1.0, 1.2] still scores 5 (ring 6). */
  lemma FiveRingOuterBand(dSq: real)
    requires FaceRadius * FaceRadius < dSq <= 1.2 * 1.2 * FaceRadius * FaceRadius
    ensures ScoreAtDistance(Wa5Ring, dSq) == Hit(5, 6)
  {
    var th, rSq := FiveRingThresholds, RadiusSq(Wa5Ring);
    assert !Within(th, 5, dSq, rSq);
    TablesAscending(Wa5Ring);
    forall j | 0 <= j < 5 ensures !Within(th, j, dSq, rSq) {
      AscendingSquares(th, j, 5);
    }
  }

  /** On a 3-spot face a distance beyond the 0.834 ring and inside the spot scores 5 (ring 6). */
  lemma SpotOuterBand(dSq: real)
    requires 0.834 * 0.834 * RadiusSq(VerticalThreeSpot) < dSq <= RadiusSq(VerticalThreeSpot)
    ensures ScoreAtDistance(VerticalThreeSpot, dSq) == Hit(5, 6)
  {
    var rs := RadiusSq(VerticalThreeSpot);
    assert !Within(SpotThresholds, 5, dSq, rs);
    ThresholdOrder(SpotThresholds, dSq, 5, rs);
  }

  /** On the WA 6-ring face a distance beyond the 0.666 ring and inside the 0.917 ring scores 6 (ring 5). */
  lemma SixRingSixBand(dSq: real)
    requires 0.666 * 0.666 * RadiusSq(Wa6Ring) < dSq <= 0.917 * 0.917 * RadiusSq(Wa6Ring)
    ensures ScoreAtDistance(Wa6Ring, dSq) == Hit(6, 5)
  {
    var rf := RadiusSq(Wa6Ring);
    assert !Within(SixRingThresholds, 4, dSq, rf);
    ThresholdOrder(SixRingThresholds, dSq, 4, rf);
  }

  /**
   * A normalised distance `nd` in (0.834, 0.917] scores 5 on a spot of a 3-spot face but 6 on
   * the WA 6-ring face: the two tables differ only in their sixth threshold.
   */
  lemma SpotSixRingDiffers(nd: real)
    requires 0.834 < nd <= 0.917
    ensures ScoreAtDistance(VerticalThreeSpot, nd * nd * RadiusSq(VerticalThreeSpot)) == Hit(5, 6)
    ensures ScoreAtDistance(Wa6Ring, nd * nd * RadiusSq(Wa6Ring)) == Hit(6, 5)
  {
    assert 0.834 * 0.834 < nd * nd <= 0.917 * 0.917 by {
      assert 0.834 * 0.834 < 0.834 * nd < nd * nd;
      assert nd * nd <= 0.917 * nd <= 0.917 * 0.917;
    }
    SpotBandAt(nd);
    SixRingBandAt(nd);
  }

  lemma SpotBandAt(nd: real)
    requires 0.834 * 0.834 < nd * nd <= 1.0
    ensures ScoreAtDistance(VerticalThreeSpot, nd * nd * RadiusSq(VerticalThreeSpot)) == Hit(5, 6)
  {
    ScaleBand(0.834 * 0.834, nd * nd, 1.0, RadiusSq(VerticalThreeSpot));
    SpotOuterBand(nd * nd * RadiusSq(VerticalThreeSpot));
  }

  lemma SixRingBandAt(nd: real)
    requires 0.666 * 0.666 < nd * nd <= 0.917 * 0.917
    ensures ScoreAtDistance(Wa6Ring, nd * nd * RadiusSq(Wa6Ring)) == Hit(6, 5)
  {
    ScaleBand(0.666 * 0.666, nd * nd, 0.917 * 0.917, RadiusSq(Wa6Ring));
    SixRingSixBand(nd * nd * RadiusSq(Wa6Ring));
  }

  lemma ScaleBand(lo: real, x: real, hi: real, r: real)
    requires lo < x <= hi && r > 0.0
    ensures lo * r < x * r <= hi * r
  {
  }

  /** A distance outside ring k of an ascending chain is outside every earlier ring too. */
  lemma ThresholdOrder(th: seq<real>, dSq: real, k: nat, rSq: real)
    requires Ascending(th) && k < |th| && rSq > 0.0
    requires !Within(th, k, dSq, rSq)
    ensures forall j :: 0 <= j <= k ==> !Within(th, j, dSq, rSq)
  {
    forall j | 0 <= j <= k ensures !Within(th, j, dSq, rSq) {
      AscendingSquares(th, j, k);
      assert th[j] * th[j] * rSq <= th[k] * th[k] * rSq;
    }
  }

  /** On a 3-spot face the nearest spot decides: no spot gives a better score than the one used. */
  lemma NearestSpotDecides(t: TargetType, x: real, y: real, k: nat)
    requires IsSpotFace(t)
    requires k < 3
    ensures var c := SpotCentres(t == VerticalThreeSpot)[k];
      Score(t, x, y).score >= ScoreAtDistance(t, DistSq(x, y, c.0, c.1)).score
  {
    var c := SpotCentres(t == VerticalThreeSpot)[k];
    ScoreMonotone(t, TargetDistSq(t, x, y), DistSq(x, y, c.0, c.1));
  }

  // ---------------------------------------------------------------------------------------
  // The score cells under the target

  datatype Colour = White | Yellow | Red | Blue | Black | Gray

  /** `getScoreBackgroundColor(score, scoringRing)`. */
  function BackgroundColour(score: int, ring: int): Colour {
    if score == 0 then White
    else if score == 10 && ring == 0 then Yellow
    else if score == 10 && ring == 1 then Yellow
    else if score == 9 then Yellow
    else if score == 8 || score == 7 then Red
    else if score == 6 || score == 5 then Blue
    else if score == 4 || score == 3 then Black
    else if score == 2 || score == 1 then White
    else Gray
  }

  /** The colour zones of a WA face: two scores per colour, gold in the middle; a miss is white. */
  function ZoneColour(score: int): Colour
    requires 0 <= score <= 10
  {
    [White, White, Black, Blue, Red, Yellow][(score + 1) / 2]
  }

  /** Every hit the scorer produces gets the colour of its scoring zone, never the gray fallback. */
  lemma ScoredHitColour(t: TargetType, dSq: real)
    ensures var h := ScoreAtDistance(t, dSq);
      0 <= h.score <= 10 && BackgroundColour(h.score, h.scoringRing) == ZoneColour(h.score)
  {
    ScoreRange(t, dSq);
    var h := ScoreAtDistance(t, dSq);
    ZoneColourOfScore(h.score, h.scoringRing);
  }

  /** A score of 10 comes only from ring 0 or 1, and then the two colourings agree. */
  lemma ZoneColourOfScore(score: int, ring: int)
    requires 0 <= score <= 10 && (score == 10 ==> ring == 0 || ring == 1)
    ensures BackgroundColour(score, ring) == ZoneColour(score)
  {
  }
}
