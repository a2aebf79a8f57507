/**
 * The two JavaScript string built-ins the score forms rely on: `String.prototype.trim` and
 * `parseInt` with no radix argument (ECMAScript sections 22.1.3.32 and 19.2.5).
 */
module JsText {
  import opened Common

  /** The characters `trim` removes: WhiteSpace and LineTerminator of ECMAScript. */
  predicate IsSpace(c: char) {
    || c == ' ' || c == '\t' || c == '\n' || c == '\U{B}' || c == '\U{C}' || c == '\r'
    || c == '\U{A0}' || c == '\U{1680}' || ('\U{2000}' <= c <= '\U{200A}')
    || c == '\U{2028}' || c == '\U{2029}' || c == '\U{202F}' || c == '\U{205F}'
    || c == '\U{3000}' || c == '\U{FEFF}'
  }

  predicate AllSpace(s: string) {
    forall k :: 0 <= k < |s| ==> IsSpace(s[k])
  }

  /** The number of leading white-space characters. */
  function LeadingSpace(s: string): (i: nat)
    ensures i <= |s|
    ensures AllSpace(s[..i])
    ensures i < |s| ==> !IsSpace(s[i])
  {
    if s == [] || !IsSpace(s[0]) then 0
    else
      var i := 1 + LeadingSpace(s[1..]);
      assert forall k :: 1 <= k < i ==> s[k] == s[1..][k - 1];
      i
  }

  /** The length of `s` without its trailing white space. */
  function WithoutTrailingSpace(s: string): (j: nat)
    ensures j <= |s|
    ensures AllSpace(s[j..])
    ensures j > 0 ==> !IsSpace(s[j - 1])
  {
    if s == [] || !IsSpace(s[|s| - 1]) then |s|
    else
      var j := WithoutTrailingSpace(s[..|s| - 1]);
      assert forall k :: j <= k < |s| - 1 ==> s[k] == s[..|s| - 1][k];
      j
  }

  /** `s.trim()`: white space removed from both ends. */
  function Trim(s: string): (r: string)
    ensures r == [] <==> AllSpace(s)
    ensures r != [] ==> !IsSpace(r[0]) && !IsSpace(r[|r| - 1])
    ensures |r| <= |s|
  {
    var i := LeadingSpace(s);
    var t := s[i..];
    var j := WithoutTrailingSpace(t);
    assert j == 0 ==> AllSpace(s) by {
      if j == 0 {
        assert t[j..] == t;
        AllSpaceConcat(s[..i], t);
        assert s[..i] + t == s;
      }
    }
    t[..j]
  }

  lemma AllSpaceConcat(a: string, b: string)
    requires AllSpace(a) && AllSpace(b)
    ensures AllSpace(a + b)
  {
  }

  /**
   * Trimming takes off exactly the padding: a text whose two ends are not white space comes
   * back unchanged from any white space around it.
   */
  lemma TrimPadded(before: string, text: string, after: string)
    requires AllSpace(before) && AllSpace(after)
    requires text != [] ==> !IsSpace(text[0]) && !IsSpace(text[|text| - 1])
    ensures Trim(before + text + after) == text
  {
    var s := before + text + after;
    if text == [] {
      assert forall k :: 0 <= k < |s| ==> IsSpace(s[k]) by {
        forall k | 0 <= k < |s| ensures IsSpace(s[k]) {
          if k < |before| { assert s[k] == before[k]; } else { assert s[k] == after[k - |before|]; }
        }
      }
    } else {
      var i := LeadingSpace(s);
      assert s[|before|] == text[0];
      assert forall k :: 0 <= k < |before| ==> s[k] == before[k];
      if i < |before| {
        assert false;
      } else if i > |before| {
        assert false;
      }
      var t := s[i..];
      assert t == text + after;
      var j := WithoutTrailingSpace(t);
      assert t[|text| - 1] == text[|text| - 1];
      if j < |text| {
        assert false;
      }
      assert t[..j] == text;
    }
  }

  lemma TrimIdempotent(s: string)
    ensures Trim(Trim(s)) == Trim(s)
  {
    TrimPadded([], Trim(s), []);
    assert [] + Trim(s) + [] == Trim(s);
  }

  predicate IsHexDigit(c: char) {
    IsDigit(c) || 'a' <= c <= 'f' || 'A' <= c <= 'F'
  }

  /** A digit of radix 16 when `hex`, of radix 10 otherwise. */
  predicate IsRadixDigit(c: char, hex: bool) {
    if hex then IsHexDigit(c) else IsDigit(c)
  }

  function HexDigitValue(c: char): (d: int)
    requires IsHexDigit(c)
    ensures 0 <= d < 16
  {
    if IsDigit(c) then DigitValue(c)
    else if 'a' <= c <= 'f' then c as int - 'a' as int + 10
    else c as int - 'A' as int + 10
  }

  function HexValue(s: string): nat
    requires forall i :: 0 <= i < |s| ==> IsHexDigit(s[i])
  {
    if s == [] then 0 else 16 * HexValue(s[..|s| - 1]) + HexDigitValue(s[|s| - 1])
  }

  /** The length of the longest prefix made of digits of the radix. */
  function DigitRun(s: string, hex: bool): (n: nat)
    ensures n <= |s|
    ensures forall k :: 0 <= k < n ==> IsRadixDigit(s[k], hex)
    ensures n < |s| ==> !IsRadixDigit(s[n], hex)
  {
    if s == [] || !IsRadixDigit(s[0], hex) then 0
    else
      var n := 1 + DigitRun(s[1..], hex);
      assert forall k :: 1 <= k < n ==> s[k] == s[1..][k - 1];
      n
  }

  /** The text after one optional leading sign. */
  function AfterSign(t: string): (u: string)
    ensures |u| <= |t|
  {
    if |t| > 0 && (t[0] == '-' || t[0] == '+') then t[1..] else t
  }

  /** Whether the text starts with the radix-16 prefix `0x` or `0X`. */
  predicate HasHexPrefix(u: string) {
    |u| >= 2 && u[0] == '0' && (u[1] == 'x' || u[1] == 'X')
  }

  /** The unsigned number at the start of `u`: the longest digit run after an optional `0x`. */
  function ParseMagnitude(u: string): Option<nat> {
    var hex := HasHexPrefix(u);
    var digits := if hex then u[2..] else u;
    var n := DigitRun(digits, hex);
    if n == 0 then None
    else if hex then Some(HexValue(digits[..n]))
    else Some(DigitsValue(digits[..n]))
  }

  /**
   * `parseInt(s)`: skip leading white space, read one optional sign, read a `0x`/`0X`
   * prefix as radix 16, then the longest run of digits; no digits at all is `NaN` (`None`).
   */
  function ParseInt(s: string): Option<int> {
    ParseSigned(s[LeadingSpace(s)..])
  }

  /** The number at the start of a text that does not start with white space. */
  function ParseSigned(t: string): Option<int> {
    match ParseMagnitude(AfterSign(t))
    case None => None
    case Some(m) =>
      var value: int := if |t| > 0 && t[0] == '-' then -(m as int) else m;
      Some(value)
  }

  /** A decimal digit string followed by a character that ends the number reads as its value. */
  lemma {:induction false} MagnitudeDecimal(d: string, rest: string)
    requires d != [] && forall k :: 0 <= k < |d| ==> IsDigit(d[k])
    requires rest != [] ==> !IsDigit(rest[0]) && rest[0] != 'x' && rest[0] != 'X'
    ensures ParseMagnitude(d + rest) == Some(DigitsValue(d))
  {
    var u := d + rest;
    assert u[0] == d[0];
    assert !HasHexPrefix(u) by {
      if |u| >= 2 {
        if |d| >= 2 { assert u[1] == d[1]; } else { assert u[1] == rest[0]; }
      }
    }
    var n := DigitRun(u, false);
    assert forall k :: 0 <= k < |d| ==> u[k] == d[k];
    assert |d| < |u| ==> !IsDigit(u[|d|]) by {
      if |d| < |u| { assert u[|d|] == rest[0]; }
    }
    if n < |d| {
      assert false;
    }
    assert u[..n] == d;
  }

  /** A digit is neither white space nor a sign. */
  lemma DigitNotSpace(c: char)
    requires IsDigit(c)
    ensures !IsSpace(c) && c != '-' && c != '+'
  {
  }

  /** A text that starts with neither white space nor a sign is read from its first character. */
  lemma ParseIntUnsigned(s: string)
    requires s != [] && !IsSpace(s[0]) && s[0] != '-' && s[0] != '+'
    ensures ParseMagnitude(s).None? ==> ParseInt(s) == None
    ensures ParseMagnitude(s).Some? ==> ParseInt(s) == Some(ParseMagnitude(s).value)
  {
    assert LeadingSpace(s) == 0;
    assert s[0..] == s;
  }

  /** A text that starts with a minus sign reads as the negated number after it. */
  lemma ParseIntMinus(s: string)
    requires s != [] && s[0] == '-'
    ensures ParseMagnitude(s[1..]).None? ==> ParseInt(s) == None
    ensures ParseMagnitude(s[1..]).Some? ==> ParseInt(s) == Some(-(ParseMagnitude(s[1..]).value as int))
  {
    assert !IsSpace(s[0]);
    assert LeadingSpace(s) == 0;
    assert s[0..] == s;
  }

  /** The decimal text `String(n)` writes reads back as `n`, also after a minus sign. */
  lemma ParseIntDecimal(n: nat)
    ensures ParseInt(NatToString(n)) == Some(n)
    ensures ParseInt("-" + NatToString(n)) == Some(-(n as int))
  {
    var d := NatToString(n);
    MagnitudeOfDecimal(n);
    DigitNotSpace(d[0]);
    ParseIntUnsigned(d);
    var m := "-" + d;
    assert m[1..] == d;
    ParseIntMinus(m);
  }

  lemma MagnitudeOfDecimal(n: nat)
    ensures ParseMagnitude(NatToString(n)) == Some(n)
  {
    var d := NatToString(n);
    NatToStringValue(n);
    MagnitudeDecimal(d, []);
    assert d + [] == d;
  }

  /** Leading white space is skipped. */
  lemma ParseIntSkipsSpace(blanks: string, s: string)
    requires AllSpace(blanks)
    ensures ParseInt(blanks + s) == ParseInt(s)
  {
    LeadingSpaceConcat(blanks, s);
    assert (blanks + s)[|blanks|..] == s;
    SameAfterSpace(blanks + s, s, |blanks|);
  }

  /** Two texts with the same text after their leading white space parse alike. */
  lemma SameAfterSpace(x: string, s: string, k: nat)
    requires k <= |x| && x[k..] == s
    requires LeadingSpace(x) == k + LeadingSpace(s)
    ensures ParseInt(x) == ParseInt(s)
  {
    var n := LeadingSpace(s);
    assert x[k + n..] == x[k..][n..];
  }

  lemma {:induction false} LeadingSpaceConcat(blanks: string, s: string)
    requires AllSpace(blanks)
    ensures LeadingSpace(blanks + s) == |blanks| + LeadingSpace(s)
  {
    if blanks != [] {
      var bs := blanks + s;
      assert bs[0] == blanks[0];
      assert bs[1..] == blanks[1..] + s;
      LeadingSpaceConcat(blanks[1..], s);
    } else {
      assert blanks + s == s;
    }
  }

  /** Reading stops at the first character that is not a digit: `parseInt("7.5")` is 7. */
  lemma ParseIntStopsAtNonDigit(n: nat, c: char, rest: string)
    requires !IsDigit(c) && c != 'x' && c != 'X'
    ensures ParseInt(NatToString(n) + [c] + rest) == Some(n)
  {
    var d := NatToString(n);
    var s := d + ([c] + rest);
    assert s == NatToString(n) + [c] + rest;
    NatToStringValue(n);
    MagnitudeDecimal(d, [c] + rest);
    assert s[0] == d[0];
    DigitNotSpace(d[0]);
    ParseIntUnsigned(s);
  }

  /** A text without a single decimal digit is `NaN`. */
  lemma ParseIntNoDigits(s: string)
    requires forall k :: 0 <= k < |s| ==> !IsDigit(s[k])
    ensures ParseInt(s) == None
  {
    var i := LeadingSpace(s);
    var t := s[i..];
    var u := AfterSign(t);
    assert forall k :: 0 <= k < |u| ==> !IsDigit(u[k]) by {
      forall k | 0 <= k < |u| ensures !IsDigit(u[k]) {
        if |t| > 0 && (t[0] == '-' || t[0] == '+') {
          assert u[k] == s[i + 1 + k];
        } else {
          assert u[k] == s[i + k];
        }
      }
    }
    assert !HasHexPrefix(u);
    assert |u| > 0 ==> !IsDigit(u[0]);
  }

  /** Radix 16 after `0x`: a run of hex digits reads as its radix-16 value; no digits is not a number. */
  lemma ParseIntHex(d: string)
    requires forall k :: 0 <= k < |d| ==> IsHexDigit(d[k])
    ensures d != [] ==> ParseInt("0x" + d) == Some(HexValue(d))
    ensures d == [] ==> ParseInt("0x" + d) == None
  {
    var u := "0x" + d;
    DigitNotSpace(u[0]);
    ParseIntUnsigned(u);
    HexMagnitude(d);
  }

  lemma HexMagnitude(d: string)
    requires forall k :: 0 <= k < |d| ==> IsHexDigit(d[k])
    ensures ParseMagnitude("0x" + d) == if d == [] then None else Some(HexValue(d))
  {
    var u := "0x" + d;
    assert HasHexPrefix(u) && u[2..] == d;
    assert d[..|d|] == d;
  }
}
