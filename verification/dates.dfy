/**
 * Gregorian calendar dates as Python's `datetime.date` holds them, and their
 * text form: the ISO 8601 extended calendar date `YYYY-MM-DD` (the `full-date`
 * production of section 5.6 of RFC 3339), which `date.isoformat` writes and
 * `date.fromisoformat` reads.
 */
module Dates {
  import opened Wrappers

  /** A year/month/day triple; not every triple is a real date. */
  datatype Date = Date(year: int, month: int, day: int)

  /** The year range of Python's `datetime.date` (`MINYEAR`, `MAXYEAR`). */
  const MinYear: int := 1
  const MaxYear: int := 9999

  predicate IsLeapYear(y: int) {
    y % 4 == 0 && (y % 100 != 0 || y % 400 == 0)
  }

  function DaysInMonth(y: int, m: int): (n: int)
    requires 1 <= m <= 12
    ensures 28 <= n <= 31
    ensures m == 2 ==> (n == 29 <==> IsLeapYear(y))
    ensures m != 2 ==> (n == 30 <==> m in {4, 6, 9, 11})
    ensures m == 2 && !IsLeapYear(y) ==> n == 28
    ensures m in {1, 3, 5, 7, 8, 10, 12} ==> n == 31
  {
    if m == 2 then (if IsLeapYear(y) then 29 else 28)
    else if m == 4 || m == 6 || m == 9 || m == 11 then 30
    else 31
  }

  /** The triples that `date(year, month, day)` accepts without raising `ValueError`. */
  predicate IsValid(d: Date)
    ensures IsValid(d) && d.day == 31 ==> d.month in {1, 3, 5, 7, 8, 10, 12}
    ensures IsValid(d) && d.month == 2 && d.day > 28 ==> d.day == 29 && IsLeapYear(d.year)
  {
    MinYear <= d.year <= MaxYear &&
    1 <= d.month <= 12 &&
    1 <= d.day <= DaysInMonth(d.year, d.month)
  }

  type CalendarDate = d: Date | IsValid(d) witness Date(1, 1, 1)

  // ----- decimal digits -----

  predicate IsDigit(c: char) {
    '0' <= c <= '9'
  }

  predicate AllDigits(s: string) {
    forall i :: 0 <= i < |s| ==> IsDigit(s[i])
  }

  function DigitChar(k: nat): (c: char)
    requires k < 10
    ensures IsDigit(c) && c as int - '0' as int == k
  {
    ('0' as int + k) as char
  }

  /** Ten to the power `n`: the bound below which a number fits in `n` digits. */
  function Pow10(n: nat): nat
  {
    if n == 0 then 1 else 10 * Pow10(n - 1)
  }

  /** The number a string of decimal digits denotes, most significant digit first. */
  function DigitsValue(s: string): nat
    requires AllDigits(s)
  {
    if s == [] then 0
    else 10 * DigitsValue(s[..|s| - 1]) + (s[|s| - 1] as int - '0' as int)
  }

  /** The last `width` decimal digits of `n`, zero-padded on the left (`%0*d`). */
  function Padded(n: nat, width: nat): (s: string)
    ensures |s| == width && AllDigits(s)
  {
    if width == 0 then "" else Padded(n / 10, width - 1) + [DigitChar(n % 10)]
  }

  // ----- ISO text form -----

  /** Four-digit year, two-digit month and two-digit day, separated by '-'. */
  function IsoText(y: nat, m: nat, d: nat): (s: string)
    ensures IsoShaped(s)
  {
    Padded(y, 4) + "-" + Padded(m, 2) + "-" + Padded(d, 2)
  }

  /** `date.isoformat()`. */
  function FormatIso(d: CalendarDate): (s: string)
    ensures IsoShaped(s)
  {
    IsoText(d.year, d.month, d.day)
  }

  /** Ten characters, `-` at positions 4 and 7 and decimal digits elsewhere. */
  predicate IsoShaped(s: string) {
    |s| == 10 && s[4] == '-' && s[7] == '-' &&
    AllDigits(s[..4]) && AllDigits(s[5..7]) && AllDigits(s[8..])
  }

  /**
   * `date.fromisoformat(s)`: `None` stands for the `ValueError` it raises on
   * text of the wrong shape or on a triple that is not a real date.
   */
  function ParseIso(s: string): (r: Option<CalendarDate>)
    ensures r.Some? ==> IsoShaped(s)
    ensures r.Some? ==> r.value.year == DigitsValue(s[..4]) &&
                        r.value.month == DigitsValue(s[5..7]) &&
                        r.value.day == DigitsValue(s[8..])
  {
    if IsoShaped(s) then
      var d := Date(DigitsValue(s[..4]), DigitsValue(s[5..7]), DigitsValue(s[8..]));
      if IsValid(d) then Some(d) else None
    else None
  }

  // ----- properties -----

  lemma {:induction false} DigitsValueOfPadded(n: nat, width: nat)
    requires n < Pow10(width)
    ensures DigitsValue(Padded(n, width)) == n
  {
    if width > 0 {
      var s := Padded(n, width);
      assert s[..|s| - 1] == Padded(n / 10, width - 1);
      DigitsValueOfPadded(n / 10, width - 1);
    }
  }

  lemma {:induction false} PaddedOfDigitsValue(s: string)
    requires AllDigits(s)
    ensures DigitsValue(s) < Pow10(|s|)
    ensures Padded(DigitsValue(s), |s|) == s
  {
    if s != [] {
      var init := s[..|s| - 1];
      PaddedOfDigitsValue(init);
      var v := DigitsValue(s);
      assert v / 10 == DigitsValue(init) && v % 10 == s[|s| - 1] as int - '0' as int;
      assert s == init + [s[|s| - 1]];
    }
  }

  /** Formatting a date and parsing the text back gives the date again. */
  lemma ParseFormatRoundTrip(d: CalendarDate)
    ensures ParseIso(FormatIso(d)) == Some(d)
  {
    var s := FormatIso(d);
    assert s[..4] == Padded(d.year, 4);
    assert s[5..7] == Padded(d.month, 2);
    assert s[8..] == Padded(d.day, 2);
    DigitsValueOfPadded(d.year, 4);
    DigitsValueOfPadded(d.month, 2);
    DigitsValueOfPadded(d.day, 2);
  }

  /** Every text the parser accepts is the canonical text of the date it yields. */
  lemma FormatParseRoundTrip(s: string, d: CalendarDate)
    requires ParseIso(s) == Some(d)
    ensures FormatIso(d) == s
  {
    PaddedOfDigitsValue(s[..4]);
    PaddedOfDigitsValue(s[5..7]);
    PaddedOfDigitsValue(s[8..]);
    assert s == s[..4] + "-" + s[5..7] + "-" + s[8..];
  }

  /** The parser accepts a text exactly when it is the ISO form of some date. */
  lemma ParseIsoAcceptsExactlyFormatted(s: string)
    ensures ParseIso(s).Some? <==> exists d: CalendarDate :: FormatIso(d) == s
  {
    if ParseIso(s).Some? {
      FormatParseRoundTrip(s, ParseIso(s).value);
    }
    if exists d: CalendarDate :: FormatIso(d) == s {
      var d: CalendarDate :| FormatIso(d) == s;
      ParseFormatRoundTrip(d);
    }
  }

  /** February 29th exists exactly in leap years; February 30th never does. */
  lemma LeapDay(y: int)
    requires MinYear <= y <= MaxYear
    ensures IsValid(Date(y, 2, 29)) <==> IsLeapYear(y)
    ensures !IsValid(Date(y, 2, 30))
  {
  }

  /** The text built from a year, month and day denotes that triple, and parses iff it is a real date. */
  lemma ParseIsoOfFields(y: nat, m: nat, d: nat)
    requires y < 10000 && m < 100 && d < 100
    ensures ParseIso(IsoText(y, m, d)).Some? <==> IsValid(Date(y, m, d))
    ensures ParseIso(IsoText(y, m, d)).Some? ==> ParseIso(IsoText(y, m, d)).value == Date(y, m, d)
  {
    var s := IsoText(y, m, d);
    assert s[..4] == Padded(y, 4);
    assert s[5..7] == Padded(m, 2);
    assert s[8..] == Padded(d, 2);
    DigitsValueOfPadded(y, 4);
    DigitsValueOfPadded(m, 2);
    DigitsValueOfPadded(d, 2);
  }

  /** `2024-02-30` is rejected: February has no 30th day, even in a leap year. */
  lemma RejectsFebruaryThirtieth()
    ensures ParseIso(IsoText(2024, 2, 30)) == None
  {
    ParseIsoOfFields(2024, 2, 30);
  }

  /** `2024-02-29` is accepted and `2023-02-29` rejected: only 2024 is a leap year. */
  lemma LeapDayText()
    ensures ParseIso(IsoText(2024, 2, 29)) == Some(Date(2024, 2, 29))
    ensures ParseIso(IsoText(2023, 2, 29)) == None
  {
    ParseIsoOfFields(2024, 2, 29);
    ParseIsoOfFields(2023, 2, 29);
  }

  /** `2024-13-01` is rejected: there is no thirteenth month. */
  lemma RejectsThirteenthMonth()
    ensures ParseIso(IsoText(2024, 13, 1)) == None
  {
    ParseIsoOfFields(2024, 13, 1);
  }
}
