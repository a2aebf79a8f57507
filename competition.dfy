/**
 * The competition board of the web client: the stored score records, filtered by
 * competition type and sorted, largest first, by a chosen key; plus the labels and colours
 * it shows for a type and for each arrow score.
 */
module Competition {
  import opened ScoreInput
  import Ordering

  const AllTypes: string := "all"

  predicate Selected(filter: string, r: ScoreRecord) {
    filter == AllTypes || r.competitionType == filter
  }

  /** `filteredScores`: every record for "all", otherwise those of the chosen type. */
  function FilterRecords(records: seq<ScoreRecord>, filter: string): (r: seq<ScoreRecord>)
    ensures |r| <= |records|
    ensures filter == AllTypes ==> r == records
    ensures forall x :: x in r <==> x in records && Selected(filter, x)
  {
    if records == [] then []
    else
      var init := records[..|records| - 1];
      var last := records[|records| - 1];
      assert records == init + [last];
      FilterRecords(init, filter) + (if Selected(filter, last) then [last] else [])
  }

  /** Filtering a list split in two filters each part in place, so the order is kept. */
  lemma {:induction false} FilterConcat(a: seq<ScoreRecord>, b: seq<ScoreRecord>, filter: string)
    ensures FilterRecords(a + b, filter) == FilterRecords(a, filter) + FilterRecords(b, filter)
    decreases |b|
  {
    if b != [] {
      var init, last := b[..|b| - 1], b[|b| - 1];
      assert a + b == (a + init) + [last];
      assert (a + b)[..|a + b| - 1] == a + init;
      FilterConcat(a, init, filter);
    } else {
      assert a + b == a;
    }
  }

  /** The comparator's key: an unknown sort key compares every pair as equal. */
  function SortKey(sortBy: string, r: ScoreRecord): real {
    match sortBy
    case "averageScore" => r.averageScore
    case "totalScore" => r.totalScore as real
    case "timestamp" => r.timestamp as real
    case _ => 0.0
  }

  function KeyOf(sortBy: string): ScoreRecord -> real {
    r => SortKey(sortBy, r)
  }

  predicate KnownSortKey(sortBy: string) {
    sortBy == "averageScore" || sortBy == "totalScore" || sortBy == "timestamp"
  }

  /** `sortedScores`: the stable sort with comparator `key(b) - key(a)`. */
  function SortRecords(records: seq<ScoreRecord>, sortBy: string): seq<ScoreRecord> {
    Ordering.SortDesc(records, KeyOf(sortBy))
  }

  /**
   * The board is a permutation of the filtered records, ordered by non-increasing key,
   * with records of equal key in their stored order.
   */
  lemma SortRecordsFacts(records: seq<ScoreRecord>, filter: string, sortBy: string)
    ensures var shown := SortRecords(FilterRecords(records, filter), sortBy);
      && multiset(shown) == multiset(FilterRecords(records, filter))
      && (forall i, j :: 0 <= i < j < |shown| ==> SortKey(sortBy, shown[i]) >= SortKey(sortBy, shown[j]))
      && (forall v :: Ordering.WithKey(shown, KeyOf(sortBy), v) == Ordering.WithKey(FilterRecords(records, filter), KeyOf(sortBy), v))
  {
    var filtered := FilterRecords(records, filter);
    Ordering.SortDescFacts(filtered, KeyOf(sortBy));
    var shown := SortRecords(filtered, sortBy);
    assert forall i, j :: 0 <= i < j < |shown| ==> KeyOf(sortBy)(shown[i]) >= KeyOf(sortBy)(shown[j]);
  }

  /** An unknown sort key leaves the filtered order as it is. */
  lemma UnknownSortKeyKeepsOrder(records: seq<ScoreRecord>, sortBy: string)
    requires !KnownSortKey(sortBy)
    ensures SortRecords(records, sortBy) == records
  {
    Ordering.SortDescConstantKey(records, KeyOf(sortBy));
  }

  /** `getCompetitionTypeText`: the three known types get their Korean labels. */
  function TypeLabel(kind: string): string {
    match kind
    case "practice" => "연습"
    case "competition" => "대회"
    case "training" => "훈련"
    case _ => kind
  }

  predicate KnownType(kind: string) {
    kind == "practice" || kind == "competition" || kind == "training"
  }

  /** A type is shown as itself exactly when it is not one of the three known ones, and the known labels differ. */
  lemma TypeLabelFacts(kind: string)
    ensures TypeLabel(kind) == kind <==> !KnownType(kind)
    ensures TypeLabel("practice") != TypeLabel("competition")
    ensures TypeLabel("practice") != TypeLabel("training")
    ensures TypeLabel("competition") != TypeLabel("training")
  {
    assert "연습" != "practice" by { assert "연습"[0] != "practice"[0]; }
    assert "대회" != "competition" by { assert "대회"[0] != "competition"[0]; }
    assert "훈련" != "training" by { assert "훈련"[0] != "training"[0]; }
    assert "연습"[0] != "대회"[0] && "연습"[0] != "훈련"[0] && "대회"[0] != "훈련"[0];
  }

  /** `getCompetitionTypeColor`. */
  function TypeColour(kind: string): string {
    match kind
    case "practice" => "bg-blue-100 text-blue-800"
    case "competition" => "bg-red-100 text-red-800"
    case "training" => "bg-green-100 text-green-800"
    case _ => "bg-gray-100 text-gray-800"
  }

  /** Only unknown types are gray. */
  lemma TypeColourFacts(kind: string)
    ensures TypeColour(kind) == "bg-gray-100 text-gray-800" <==> !KnownType(kind)
  {
    var gray := "bg-gray-100 text-gray-800";
    if kind == "practice" {
      assert TypeColour(kind)[5] != gray[5];
    } else if kind == "competition" {
      assert TypeColour(kind)[5] != gray[5];
    } else if kind == "training" {
      assert TypeColour(kind)[5] != gray[5];
    }
  }

  datatype ChipColour = RedChip | YellowChip | GreenChip

  /** The colour of one arrow-score chip: 9 and up green, 7 and 8 yellow, below 7 red. */
  function ChipClass(score: int): ChipColour {
    if score >= 9 then GreenChip else if score >= 7 then YellowChip else RedChip
  }

  function ChipRank(c: ChipColour): int {
    match c
    case RedChip => 0
    case YellowChip => 1
    case GreenChip => 2
  }

  /** A higher score never gets a lower chip, and each class is an interval of scores. */
  lemma ChipClassFacts(s: int, t: int)
    ensures s <= t ==> ChipRank(ChipClass(s)) <= ChipRank(ChipClass(t))
    ensures ChipClass(s) == GreenChip <==> 9 <= s
    ensures ChipClass(s) == YellowChip <==> 7 <= s < 9
    ensures ChipClass(s) == RedChip <==> s < 7
  {
  }
}
