/**
 * The database type converter for distances and sizes of the Android app: a dimension is
 * stored as the text of its value, one space, and the text of its unit, and read back by
 * splitting at the first space.  The value text is kept as an opaque token here.
 */
module DimensionConverter {
  import opened Common

  /** A dimension as its two texts: the value and the unit's string form. */
  datatype Dimension = Dimension(value: string, unit: string)

  /** `indexOf`: the first position of `c`, or -1 when `c` does not occur. */
  function IndexOf(s: string, c: char): (i: int)
    ensures -1 <= i < |s|
    ensures i == -1 <==> c !in s
    ensures i >= 0 ==> s[i] == c && c !in s[..i]
  {
    if s == [] then -1
    else if s[0] == c then 0
    else
      var j := IndexOf(s[1..], c);
      assert s == [s[0]] + s[1..];
      if j == -1 then -1
      else
        assert s[..j + 1] == [s[0]] + s[1..][..j];
        j + 1
  }

  /** `getDBValue(Dimension)`: "value unit". */
  function DimensionDBValue(d: Dimension): (s: string)
    ensures |s| == |d.value| + 1 + |d.unit|
  {
    d.value + " " + d.unit
  }

  /** `getDBValue(Unit)`: the unit's string form. */
  function UnitDBValue(unit: string): string {
    unit
  }

  /**
   * `getModelValue`: value before the first space, unit after it.  With no space at all
   * `substring(0, -1)` throws, the error case here.
   */
  function ParseDimension(data: string): (r: Result<Dimension>)
    ensures r.Err? <==> ' ' !in data
  {
    var i := IndexOf(data, ' ');
    if i < 0 then Err("begin 0, end -1, length " + NatToString(|data|))
    else Ok(Dimension(data[..i], data[i + 1..]))
  }

  /** Writing then reading gives back the dimension whenever the value text has no space; the unit may have spaces. */
  lemma RoundTrip(d: Dimension)
    requires ' ' !in d.value
    ensures ParseDimension(DimensionDBValue(d)) == Ok(d)
    ensures ParseDimension(DimensionDBValue(d)).value.unit == UnitDBValue(d.unit)
  {
    var s := DimensionDBValue(d);
    assert s[|d.value|] == ' ';
    assert s[..|d.value|] == d.value;
    var i := IndexOf(s, ' ');
    assert i == |d.value|;
    assert s[i + 1..] == d.unit;
  }

  /** Every text that reads back is exactly what writing the result produces, and its value has no space. */
  lemma ParseThenWrite(data: string)
    requires ParseDimension(data).Ok?
    ensures ' ' !in ParseDimension(data).value.value
    ensures DimensionDBValue(ParseDimension(data).value) == data
  {
    var i := IndexOf(data, ' ');
    assert data == data[..i] + [data[i]] + data[i + 1..];
  }

  /** A value text with a space does not survive: "1 0" with unit "m" reads back as "1" and "0 m". */
  lemma SpaceInValueSplitsEarly()
    ensures ParseDimension(DimensionDBValue(Dimension("1 0", "m"))) == Ok(Dimension("1", "0 m"))
  {
    var s := DimensionDBValue(Dimension("1 0", "m"));
    assert s == "1 0 m";
    assert IndexOf(s, ' ') == 1 by {
      assert s[0] != ' ' && s[1] == ' ';
      assert IndexOf(s[1..], ' ') == 0;
    }
    assert s[..1] == "1" && s[2..] == "0 m";
  }
}
