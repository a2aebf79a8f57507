/**
 * The training history screen of the web client: the sessions grouped by the month of their
 * date, with the months shown expanded kept as a set, and each session's date written as
 * "Y. MM. DD.".
 */
module TrainingHistory {
  import opened Common

  /** A calendar date as the browser reads it from the session's date text. */
  datatype Date = Date(year: nat, month: int, day: int)

  datatype Session = Session(id: int, date: Date, currentRound: int, totalScore: int)

  /** The group a session belongs to: the year and month of its date. */
  datatype MonthKey = MonthKey(year: nat, month: int)

  function KeyOf(s: Session): MonthKey {
    MonthKey(s.date.year, s.date.month)
  }

  /** The sessions of one month, in list order. */
  function InMonth(sessions: seq<Session>, k: MonthKey): (r: seq<Session>)
    ensures forall x :: x in r <==> x in sessions && KeyOf(x) == k
  {
    if sessions == [] then []
    else
      var init := sessions[..|sessions| - 1];
      var last := sessions[|sessions| - 1];
      assert sessions == init + [last];
      InMonth(init, k) + (if KeyOf(last) == k then [last] else [])
  }

  /** The month keys in order of first appearance (the key order of the grouping object). */
  function Keys(sessions: seq<Session>): seq<MonthKey> {
    if sessions == [] then []
    else
      var keys := Keys(sessions[..|sessions| - 1]);
      var k := KeyOf(sessions[|sessions| - 1]);
      if k in keys then keys else keys + [k]
  }

  /** Each month appears once among the keys, exactly the months of the listed sessions, the first session's month first. */
  lemma {:induction false} KeysFacts(sessions: seq<Session>)
    ensures forall i, j :: 0 <= i < j < |Keys(sessions)| ==> Keys(sessions)[i] != Keys(sessions)[j]
    ensures forall k :: k in Keys(sessions) <==> exists x :: x in sessions && KeyOf(x) == k
    ensures sessions != [] ==> Keys(sessions) != [] && Keys(sessions)[0] == KeyOf(sessions[0])
  {
    if sessions != [] {
      var init := sessions[..|sessions| - 1];
      var last := sessions[|sessions| - 1];
      KeysFacts(init);
      assert sessions == init + [last];
      forall k ensures k in Keys(sessions) <==> exists x :: x in sessions && KeyOf(x) == k {
        if k in Keys(sessions) && k != KeyOf(last) {
          var x :| x in init && KeyOf(x) == k;
          assert x in sessions;
        }
        if k !in Keys(sessions) {
          assert forall x :: x in sessions ==> x in init || x == last;
        }
      }
      if init != [] {
        assert init[0] == sessions[0];
      }
    }
  }

  /** Every session lands in the group of its own month and in no other, and the groups keep list order. */
  lemma {:induction false} GroupsPartition(sessions: seq<Session>, more: seq<Session>, x: Session, k: MonthKey)
    ensures x in sessions ==> (x in InMonth(sessions, k) <==> k == KeyOf(x))
    ensures InMonth(sessions + more, k) == InMonth(sessions, k) + InMonth(more, k)
  {
    InMonthConcat(sessions, more, k);
  }

  lemma {:induction false} InMonthConcat(sessions: seq<Session>, more: seq<Session>, k: MonthKey)
    ensures InMonth(sessions + more, k) == InMonth(sessions, k) + InMonth(more, k)
    decreases |more|
  {
    if more == [] {
      assert sessions + more == sessions;
    } else {
      var init := more[..|more| - 1];
      assert (sessions + more)[..|sessions + more| - 1] == sessions + init;
      InMonthConcat(sessions, init, k);
    }
  }

  lemma InMonthAppend(sessions: seq<Session>, x: Session, k: MonthKey)
    ensures InMonth(sessions + [x], k) == InMonth(sessions, k) + (if KeyOf(x) == k then [x] else [])
  {
    assert (sessions + [x])[..|sessions|] == sessions;
  }

  lemma {:induction false} NoKeyNoGroup(sessions: seq<Session>, k: MonthKey)
    requires k !in Keys(sessions)
    ensures InMonth(sessions, k) == []
  {
    if sessions != [] {
      NoKeyNoGroup(sessions[..|sessions| - 1], k);
    }
  }

  /** The grouping of `keys`/`groups` is the grouping of `sessions`. */
  ghost predicate Grouped(sessions: seq<Session>, keys: seq<MonthKey>, groups: map<MonthKey, seq<Session>>) {
    && keys == Keys(sessions)
    && (forall k :: k in groups <==> k in keys)
    && (forall k :: k in groups ==> groups[k] == InMonth(sessions, k))
  }

  /** The `reduce` callback: push `s` onto its month's list, opening the list (and the key) if needed. */
  function Push(keys: seq<MonthKey>, groups: map<MonthKey, seq<Session>>, s: Session): (r: (seq<MonthKey>, map<MonthKey, seq<Session>>))
    ensures KeyOf(s) in r.1 && r.1[KeyOf(s)] == (if KeyOf(s) in groups then groups[KeyOf(s)] else []) + [s]
    ensures forall m :: m != KeyOf(s) ==> (m in r.1 <==> m in groups) && (m in groups ==> r.1[m] == groups[m])
  {
    var k := KeyOf(s);
    if k in groups then (keys, groups[k := groups[k] + [s]]) else (keys + [k], groups[k := [s]])
  }

  /** One step of the `reduce` keeps the grouping that of the sessions seen so far. */
  lemma GroupStep(sessions: seq<Session>, s: Session, keys: seq<MonthKey>, groups: map<MonthKey, seq<Session>>)
    requires Grouped(sessions, keys, groups)
    ensures Grouped(sessions + [s], Push(keys, groups, s).0, Push(keys, groups, s).1)
  {
    var k := KeyOf(s);
    assert (sessions + [s])[..|sessions|] == sessions;
    if k !in groups {
      NoKeyNoGroup(sessions, k);
    }
    forall m {
      InMonthAppend(sessions, s, m);
    }
  }

  /** The `reduce` that pushes each session onto the list of its month. */
  method GroupByMonth(sessions: seq<Session>) returns (keys: seq<MonthKey>, groups: map<MonthKey, seq<Session>>)
    ensures keys == Keys(sessions)
    ensures forall k :: k in groups <==> k in keys
    ensures forall k :: k in groups ==> groups[k] == InMonth(sessions, k)
  {
    keys, groups := [], map[];
    var i := 0;
    while i < |sessions|
      invariant 0 <= i <= |sessions|
      invariant Grouped(sessions[..i], keys, groups)
    {
      GroupStep(sessions[..i], sessions[i], keys, groups);
      PrefixExtend(sessions, i);
      keys, groups := Push(keys, groups, sessions[i]).0, Push(keys, groups, sessions[i]).1;
      i := i + 1;
    }
    assert sessions[..i] == sessions;
  }

  /** `toggleMonth` on a set: flip the one month. */
  function Toggled(expanded: set<MonthKey>, m: MonthKey): (r: set<MonthKey>)
    ensures m in r <==> m !in expanded
    ensures forall k :: k != m ==> (k in r <==> k in expanded)
  {
    if m in expanded then expanded - {m} else expanded + {m}
  }

  lemma ToggleTwice(expanded: set<MonthKey>, m: MonthKey)
    ensures Toggled(Toggled(expanded, m), m) == expanded
  {
  }

  /** "Y. MM. DD." */
  function FormatDate(d: Date): string {
    NatToString(d.year) + ". " + PadStart2(IntToString(d.month)) + ". " + PadStart2(IntToString(d.day)) + "."
  }

  /** `padStart(2, '0')`. */
  function PadStart2(s: string): (r: string)
    ensures |s| >= 2 ==> r == s
    ensures |s| < 2 ==> |r| == 2 && r[2 - |s|..] == s && forall i :: 0 <= i < 2 - |s| ==> r[i] == '0'
  {
    if |s| >= 2 then s else if |s| == 1 then "0" + s else "00"
  }

  /** A number below 100 pads to exactly two digits that read back as the number. */
  lemma TwoDigits(n: nat)
    requires n < 100
    ensures |PadStart2(NatToString(n))| == 2
    ensures forall i :: 0 <= i < 2 ==> IsDigit(PadStart2(NatToString(n))[i])
    ensures DigitsValue(PadStart2(NatToString(n))) == n
  {
    NatToStringLength(n);
    NatToStringValue(n);
    var t := NatToString(n);
    var p := PadStart2(t);
    if n < 10 {
      assert p == "0" + t;
      assert p[..1] == "0";
    }
  }

  /** The formatted date: the year, ". ", the month in two digits, ". ", the day in two digits and ".". */
  lemma FormatDateFields(d: Date)
    requires 1 <= d.month <= 12 && 1 <= d.day <= 31
    ensures var s := FormatDate(d);
      var n := |NatToString(d.year)|;
      && |s| == n + 9
      && s[..n] == NatToString(d.year)
      && s[n..n + 2] == ". " && s[n + 4..n + 6] == ". " && s[n + 8] == '.'
      && (forall i :: n + 2 <= i < n + 4 || n + 6 <= i < n + 8 ==> IsDigit(s[i]))
      && DigitsValue(s[n + 2..n + 4]) == d.month
      && DigitsValue(s[n + 6..n + 8]) == d.day
  {
    TwoDigits(d.month);
    TwoDigits(d.day);
    var mm, dd := PadStart2(NatToString(d.month)), PadStart2(NatToString(d.day));
    assert FormatDate(d) == NatToString(d.year) + ". " + mm + ". " + dd + ".";
    DateShape(NatToString(d.year), mm, dd);
  }

  /** Where the year, the separators and the two two-digit fields sit in "Y. MM. DD.". */
  lemma DateShape(y: string, mm: string, dd: string)
    requires |mm| == 2 && |dd| == 2
    requires forall i :: 0 <= i < 2 ==> IsDigit(mm[i]) && IsDigit(dd[i])
    ensures var s := y + ". " + mm + ". " + dd + ".";
      var n := |y|;
      && |s| == n + 9
      && s[..n] == y
      && s[n..n + 2] == ". " && s[n + 4..n + 6] == ". " && s[n + 8] == '.'
      && (forall i :: n + 2 <= i < n + 4 || n + 6 <= i < n + 8 ==> IsDigit(s[i]))
      && s[n + 2..n + 4] == mm
      && s[n + 6..n + 8] == dd
  {
    var s := y + ". " + mm + ". " + dd + ".";
    var n := |y|;
    assert s[..n] == y;
    assert s[n..n + 2] == ". ";
    assert s[n + 2..n + 4] == mm;
    assert s[n + 4..n + 6] == ". ";
    assert s[n + 6..n + 8] == dd;
    forall i | n + 2 <= i < n + 4 || n + 6 <= i < n + 8 ensures IsDigit(s[i]) {
      if i < n + 4 { assert s[i] == mm[i - n - 2]; } else { assert s[i] == dd[i - n - 6]; }
    }
  }

  /** The maximum shown next to a session's total: 10 points for each round. */
  function ShownMaximum(s: Session): int {
    s.currentRound * 10
  }

  class HistoryView {
    var sessions: seq<Session>
    var keys: seq<MonthKey>
    var groups: map<MonthKey, seq<Session>>
    var expanded: set<MonthKey>

    /** The groups are those of the session list. */
    ghost predicate Valid()
      reads this
    {
      Grouped(sessions, keys, groups)
    }

    constructor ()
      ensures Valid() && sessions == [] && expanded == {}
    {
      sessions, keys, groups, expanded := [], [], map[], {};
    }

    /**
     * The load on opening the screen; `reply` is the session list of a successful reply.
     * The first month is expanded; with no sessions the expanded set is left as it was.
     */
    method Load(reply: Option<seq<Session>>)
      requires Valid()
      modifies this
      ensures Valid()
      ensures reply.None? ==> sessions == old(sessions) && expanded == old(expanded)
      ensures reply.Some? ==> sessions == reply.value
      ensures reply.Some? && reply.value != [] ==> expanded == {KeyOf(reply.value[0])}
      ensures reply.Some? && reply.value == [] ==> expanded == old(expanded)
    {
      if reply.Some? {
        sessions := reply.value;
        keys, groups := GroupByMonth(sessions);
        KeysFacts(sessions);
        if |keys| > 0 {
          expanded := {keys[0]};
        }
      }
    }

    method ToggleMonth(m: MonthKey)
      modifies this`expanded
      ensures expanded == Toggled(old(expanded), m)
    {
      var next := expanded;
      if m in next {
        next := next - {m};
      } else {
        next := next + {m};
      }
      expanded := next;
    }
  }
}
