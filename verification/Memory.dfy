/** Memory sizes as text: digits with an optional fraction, white space, and one of five units. */
module Memory {
  import opened Basics

  const DEFAULT_SIZE := 256 * 1024 * 1024

  predicate IsDigit(c: char) {
    '0' <= c <= '9'
  }

  /** The white space of a regular expression (ECMA-262, section 22.2.2.9). */
  predicate IsSpace(c: char) {
    || c in "\t\n\r " || c == '\U{0B}' || c == '\U{0C}' || c == '\U{A0}' || c == '\U{1680}'
    || '\U{2000}' <= c <= '\U{200A}' || c == '\U{2028}' || c == '\U{2029}' || c == '\U{202F}'
    || c == '\U{205F}' || c == '\U{3000}' || c == '\U{FEFF}'
  }

  /**
   Lower case, as far as a size can tell: besides A to Z only the Kelvin sign becomes a letter that a
   unit contains. What becomes of other characters makes no difference, since they are never part of a size.
   */
  function Lower(c: char): char {
    if 'A' <= c <= 'Z' then (c as int + 32) as char
    else if c == '\U{212A}' then 'k'
    else c
  }

  /** `c` is the small letter `small`, its capital, or the Kelvin sign for k. */
  predicate IsLetter(c: char, small: char) {
    c == small || ('a' <= small <= 'z' && c as int + 32 == small as int) || (c == '\U{212A}' && small == 'k')
  }

  function ToLower(s: string): (r: string)
    ensures |r| == |s|
    ensures forall i :: 0 <= i < |s| ==> r[i] == Lower(s[i])
  {
    seq(|s|, i requires 0 <= i < |s| => Lower(s[i]))
  }

  function UnitSize(unit: string): Option<nat> {
    if unit == "b" then Some(1)
    else if unit == "kb" then Some(1024)
    else if unit == "mb" then Some(1024 * 1024)
    else if unit == "gb" then Some(1024 * 1024 * 1024)
    else if unit == "tb" then Some(1024 * 1024 * 1024 * 1024)
    else None
  }

  /** The units, each 1024 times the one before. */
  const UNITS := ["b", "kb", "mb", "gb", "tb"]

  function Power(base: nat, k: nat): (r: nat)
    ensures base > 0 ==> r > 0
  {
    if k == 0 then 1 else base * Power(base, k - 1)
  }

  /** Exactly these are units, and the k-th is worth 1024 to the k-th power of bytes. */
  lemma UnitsArePowers(unit: string, size: nat)
    ensures UnitSize(unit) == Some(size) <==> exists k :: 0 <= k < |UNITS| && unit == UNITS[k] && size == Power(1024, k)
  {
    assert Power(1024, 1) == 1024 && Power(1024, 2) == 1024 * 1024 && Power(1024, 3) == 1024 * 1024 * 1024;
    assert Power(1024, 4) == 1024 * Power(1024, 3);
    assert forall k :: 0 <= k < |UNITS| ==> UnitSize(UNITS[k]) == Some(Power(1024, k));
    if UnitSize(unit) == Some(size) {
      var k := if unit == "b" then 0 else if unit == "kb" then 1 else if unit == "mb" then 2 else if unit == "gb" then 3 else 4;
      assert unit == UNITS[k];
    }
  }

  /** A unit in any letter case. */
  predicate IsUnit(unit: string, k: nat)
    requires k < |UNITS|
  {
    |unit| == |UNITS[k]| && forall i :: 0 <= i < |unit| ==> IsLetter(unit[i], UNITS[k][i])
  }

  lemma UnitInAnyCase(unit: string, k: nat)
    requires k < |UNITS|
    ensures ToLower(unit) == UNITS[k] <==> IsUnit(unit, k)
  {
    assert forall c, small | 'a' <= small <= 'z' :: Lower(c) == small <==> IsLetter(c, small);
  }

  /** White space by code points. */
  lemma SpacesByCode(c: char)
    ensures IsSpace(c) <==>
            var n := c as int; 9 <= n <= 13 || 8192 <= n <= 8202
                               || n in {32, 160, 5760, 8232, 8233, 8239, 8287, 12288, 65279}
  {
  }

  // ---------- the regular expression ----------

  datatype Match = Match(whole: string, fraction: string, spaces: string, unit: string)

  predicate All(p: char -> bool, s: string) {
    forall i :: 0 <= i < |s| ==> p(s[i])
  }

  /** The strings that the parts of a match may be. */
  predicate WellFormed(m: Match) {
    && m.whole != "" && All(IsDigit, m.whole) && All(IsDigit, m.fraction)
    && All(IsSpace, m.spaces) && UnitSize(m.unit).Some?
  }

  function Point(fraction: string): string {
    if fraction == "" then "" else "." + fraction
  }

  function Text(m: Match): string {
    m.whole + (Point(m.fraction) + (m.spaces + m.unit))
  }

  /** The length of the longest prefix whose characters have property `p`. */
  function Span(p: char -> bool, s: string): (n: nat)
    ensures n <= |s| && All(p, s[..n])
    ensures n < |s| ==> !p(s[n])
  {
    if s != "" && p(s[0]) then 1 + Span(p, s[1..]) else 0
  }

  /** Matching from left to right, each part as long as it can be. */
  function Scan(s: string): (r: Option<Match>)
    ensures r.Some? ==> WellFormed(r.value) && Text(r.value) == s
  {
    var n := Span(IsDigit, s);
    if n == 0 then None
    else
      assert s == s[..n] + s[n..];
      ScanFraction(s[..n], s[n..])
  }

  function ScanFraction(whole: string, s: string): (r: Option<Match>)
    requires whole != "" && All(IsDigit, whole)
    ensures r.Some? ==> WellFormed(r.value) && Text(r.value) == whole + s
  {
    if |s| > 1 && s[0] == '.' && IsDigit(s[1]) then
      var n := Span(IsDigit, s[1..]);
      assert s == Point(s[1..][..n]) + s[1..][n..];
      ScanUnit(whole, s[1..][..n], s[1..][n..])
    else
      assert s == Point("") + s;
      ScanUnit(whole, "", s)
  }

  function ScanUnit(whole: string, fraction: string, s: string): (r: Option<Match>)
    requires whole != "" && All(IsDigit, whole) && All(IsDigit, fraction)
    ensures r.Some? ==> WellFormed(r.value) && Text(r.value) == whole + (Point(fraction) + s)
  {
    var n := Span(IsSpace, s);
    assert s == s[..n] + s[n..];
    if UnitSize(s[n..]).None? then None else Some(Match(whole, fraction, s[..n], s[n..]))
  }

  lemma {:induction false} SpanOf(p: char -> bool, a: string, b: string)
    requires All(p, a) && (b == "" || !p(b[0]))
    ensures Span(p, a + b) == |a| && (a + b)[..|a|] == a && (a + b)[|a|..] == b
  {
    if a == "" {
      assert a + b == b;
    } else {
      assert (a + b)[1..] == a[1..] + b;
      SpanOf(p, a[1..], b);
    }
  }

  lemma UnitStart(unit: string)
    requires UnitSize(unit).Some?
    ensures unit != "" && !IsDigit(unit[0]) && unit[0] != '.' && !IsSpace(unit[0])
  {
  }

  /** Where the number of a match ends there is neither a digit nor a point. */
  lemma TailStart(spaces: string, unit: string)
    requires All(IsSpace, spaces) && UnitSize(unit).Some?
    ensures spaces + unit != "" && !IsDigit((spaces + unit)[0]) && (spaces + unit)[0] != '.'
  {
    UnitStart(unit);
    if spaces != "" {
      assert IsSpace(spaces[0]);
    }
  }

  lemma UnitIsComplete(m: Match)
    requires WellFormed(m)
    ensures ScanUnit(m.whole, m.fraction, m.spaces + m.unit) == Some(m)
  {
    UnitStart(m.unit);
    SpanOf(IsSpace, m.spaces, m.unit);
  }

  lemma FractionIsComplete(m: Match)
    requires WellFormed(m)
    ensures ScanFraction(m.whole, Point(m.fraction) + (m.spaces + m.unit)) == Some(m)
  {
    TailStart(m.spaces, m.unit);
    UnitIsComplete(m);
    FractionIsRead(m.whole, m.fraction, m.spaces + m.unit);
  }

  lemma FractionIsRead(whole: string, fraction: string, tail: string)
    requires whole != "" && All(IsDigit, whole) && All(IsDigit, fraction)
    requires tail != "" && !IsDigit(tail[0]) && tail[0] != '.'
    ensures ScanFraction(whole, Point(fraction) + tail) == ScanUnit(whole, fraction, tail)
  {
    if fraction == "" {
      assert Point(fraction) + tail == tail;
    } else {
      assert (Point(fraction) + tail)[1..] == fraction + tail;
      SpanOf(IsDigit, fraction, tail);
    }
  }

  lemma ScanIsComplete(m: Match)
    requires WellFormed(m)
    ensures Scan(Text(m)) == Some(m)
  {
    var tail := Point(m.fraction) + (m.spaces + m.unit);
    TailStart(m.spaces, m.unit);
    assert tail != "" && !IsDigit(tail[0]);
    SpanOf(IsDigit, m.whole, tail);
    FractionIsComplete(m);
  }

  /** The scan finds a match exactly when there is one, and there is never more than one. */
  lemma ScanIsTheMatch(s: string, m: Match)
    ensures Scan(s) == Some(m) <==> WellFormed(m) && Text(m) == s
  {
    if WellFormed(m) && Text(m) == s {
      ScanIsComplete(m);
    }
  }

  // ---------- values ----------

  function DigitsValue(s: string): nat
    requires All(IsDigit, s)
  {
    if s == "" then 0 else 10 * DigitsValue(s[..|s| - 1]) + (s[|s| - 1] as int - '0' as int)
  }

  /** `Math.ceil` of a quotient, by repeated subtraction. */
  function CeilDiv(n: nat, d: nat): nat
    requires d > 0
  {
    if n == 0 then 0 else if n <= d then 1 else 1 + CeilDiv(n - d, d)
  }

  /** It is the least whole number that is not below the quotient. */
  lemma {:induction false} CeilDivIsLeast(n: nat, d: nat, q: nat)
    requires d > 0
    ensures q * d >= n <==> q >= CeilDiv(n, d)
    decreases n
  {
    if q > 0 {
      assert q * d == (q - 1) * d + d;
      if n > d {
        CeilDivIsLeast(n - d, d, q - 1);
      }
    }
  }

  /** The exact number of bytes, rounded up. */
  function SizeOf(whole: string, fraction: string, unit: nat): nat
    requires All(IsDigit, whole) && All(IsDigit, fraction)
  {
    CeilDiv(DigitsValue(whole + fraction) * unit, Power(10, |fraction|))
  }

  /** `_parseMemory`; a matched unit is always in the table, so the fallback of its lookup is never used. */
  function ParseMemory(memString: string): nat {
    match Scan(ToLower(memString))
    case None => DEFAULT_SIZE
    case Some(m) => SizeOf(m.whole, m.fraction, UnitSize(m.unit).value)
  }

  // ---------- what it returns ----------

  lemma LowerConcat(a: string, b: string)
    ensures ToLower(a + b) == ToLower(a) + ToLower(b)
  {
  }

  lemma LowerKeeps(s: string)
    requires forall i :: 0 <= i < |s| ==> Lower(s[i]) == s[i]
    ensures ToLower(s) == s
  {
  }

  /**
   Any number with a unit in any letter case, and any white space in between, is parsed to exactly
   the number times the unit, rounded up.
   */
  lemma SizeParses(whole: string, fraction: string, spaces: string, unit: string)
    requires whole != "" && All(IsDigit, whole) && All(IsDigit, fraction) && All(IsSpace, spaces)
    requires UnitSize(ToLower(unit)).Some?
    ensures ParseMemory(Text(Match(whole, fraction, spaces, unit)))
         == SizeOf(whole, fraction, UnitSize(ToLower(unit)).value)
  {
    var m := Match(whole, fraction, spaces, ToLower(unit));
    LowerText(whole, fraction, spaces, unit);
    ScanIsComplete(m);
  }

  /** With k fraction digits the result is the least whole number that is not below digits times unit over 10^k. */
  lemma DecimalIsRoundedUp(whole: string, fraction: string, spaces: string, unit: string, k: nat, q: nat)
    requires whole != "" && All(IsDigit, whole) && All(IsDigit, fraction) && All(IsSpace, spaces)
    requires k < |UNITS| && IsUnit(unit, k)
    ensures q * Power(10, |fraction|) >= DigitsValue(whole + fraction) * Power(1024, k)
       <==> q >= ParseMemory(Text(Match(whole, fraction, spaces, unit)))
  {
    hide UnitSize, Lower, IsLetter;
    UnitInAnyCase(unit, k);
    UnitsArePowers(ToLower(unit), Power(1024, k));
    SizeParses(whole, fraction, spaces, unit);
    SizeIsLeast(whole, fraction, Power(1024, k), q);
  }

  lemma SizeIsLeast(whole: string, fraction: string, unit: nat, q: nat)
    requires All(IsDigit, whole) && All(IsDigit, fraction)
    ensures q * Power(10, |fraction|) >= DigitsValue(whole + fraction) * unit <==> q >= SizeOf(whole, fraction, unit)
  {
    CeilDivIsLeast(DigitsValue(whole + fraction) * unit, Power(10, |fraction|), q);
  }

  lemma LowerText(whole: string, fraction: string, spaces: string, unit: string)
    requires All(IsDigit, whole) && All(IsDigit, fraction) && All(IsSpace, spaces)
    ensures ToLower(Text(Match(whole, fraction, spaces, unit))) == Text(Match(whole, fraction, spaces, ToLower(unit)))
  {
    LowerKeeps(whole);
    LowerKeeps(Point(fraction));
    LowerKeeps(spaces);
    LowerConcat(spaces, unit);
    LowerConcat(Point(fraction), spaces + unit);
    LowerConcat(whole, Point(fraction) + (spaces + unit));
  }

  /** Every string is either a size, in exactly one way, and parsed to its value, or gives the default. */
  lemma SizeOrDefault(s: string) returns (m: Option<Match>)
    ensures m.Some? ==>
              && WellFormed(m.value) && Text(m.value) == ToLower(s)
              && ParseMemory(s) == SizeOf(m.value.whole, m.value.fraction, UnitSize(m.value.unit).value)
    ensures m.None? ==> ParseMemory(s) == 268_435_456
    ensures forall x :: WellFormed(x) && Text(x) == ToLower(s) ==> m == Some(x)
  {
    m := Scan(ToLower(s));
    forall x | WellFormed(x) && Text(x) == ToLower(s) ensures m == Some(x) {
      ScanIsComplete(x);
    }
  }

  function Decimal(n: nat): (s: string)
    ensures s != "" && All(IsDigit, s)
    ensures DigitsValue(s) == n
  {
    if n < 10 then DecimalDigit(n) else DecimalMore(n)
  }

  function DecimalDigit(n: nat): (s: string)
    requires n < 10
    ensures s != "" && All(IsDigit, s) && DigitsValue(s) == n
  {
    var s := [('0' as int + n) as char];
    assert s[..0] == "";
    s
  }

  function DecimalMore(n: nat): (s: string)
    requires n >= 10
    ensures s != "" && All(IsDigit, s) && DigitsValue(s) == n
    decreases n, 0
  {
    var front, last := Decimal(n / 10), DecimalDigit(n % 10);
    assert (front + last)[..|front + last| - 1] == front;
    assert last[..0] == "";
    front + last
  }

  /** Round trip: a natural number printed with any unit, letter case and spacing is read back exactly. */
  lemma WholeSizeRoundTrip(n: nat, spaces: string, unit: string, k: nat)
    requires All(IsSpace, spaces) && k < |UNITS| && IsUnit(unit, k)
    ensures ParseMemory(Decimal(n) + (spaces + unit)) == n * Power(1024, k)
  {
    hide UnitSize, Lower, IsLetter;
    UnitInAnyCase(unit, k);
    UnitsArePowers(ToLower(unit), Power(1024, k));
    WholeDigitsParse(Decimal(n), spaces, unit);
  }

  lemma WholeDigitsParse(digits: string, spaces: string, unit: string)
    requires digits != "" && All(IsDigit, digits) && All(IsSpace, spaces) && UnitSize(ToLower(unit)).Some?
    ensures ParseMemory(digits + (spaces + unit)) == DigitsValue(digits) * UnitSize(ToLower(unit)).value
  {
    hide UnitSize, Lower, SizeOf, ParseMemory, DigitsValue;
    SizeParses(digits, "", spaces, unit);
    assert Point("") + (spaces + unit) == spaces + unit;
    SizeOfWhole(digits, UnitSize(ToLower(unit)).value);
  }

  lemma SizeOfWhole(digits: string, unit: nat)
    requires All(IsDigit, digits)
    ensures SizeOf(digits, "", unit) == DigitsValue(digits) * unit
  {
    assert digits + "" == digits && Power(10, 0) == 1;
    CeilDivOne(DigitsValue(digits) * unit);
  }

  lemma {:induction false} CeilDivOne(n: nat)
    ensures CeilDiv(n, 1) == n
  {
    if n > 1 {
      CeilDivOne(n - 1);
    }
  }
}
