/**
 * Calendar dates in the "2006-01-02" layout the task handlers parse and
 * print: a four-digit year, a two-digit month and a two-digit day of the
 * proleptic Gregorian calendar.
 */
module Dates {
  import opened Wrappers
  import opened Numbers

  datatype Date = Date(year: int, month: nat, day: nat)

  predicate IsLeap(year: int)
  {
    year % 4 == 0 && (year % 100 != 0 || year % 400 == 0)
  }

  /** The number of days of a month of a year. */
  function DaysIn(month: nat, year: int): (n: nat)
    requires 1 <= month <= 12
    ensures 28 <= n <= 31
    ensures n == 29 <==> month == 2 && IsLeap(year)
  {
    if month == 2 then (if IsLeap(year) then 29 else 28)
    else if month == 4 || month == 6 || month == 9 || month == 11 then 30
    else 31
  }

  /** A date that exists in the calendar. */
  predicate Valid(d: Date)
  {
    1 <= d.month <= 12 && 1 <= d.day <= DaysIn(d.month, d.year)
  }

  /** `a` falls on an earlier day than `b`. */
  predicate Before(a: Date, b: Date)
  {
    a.year < b.year || (a.year == b.year && (a.month < b.month || (a.month == b.month && a.day < b.day)))
  }

  /** Of two dates exactly one is first, or they are the same day. */
  lemma BeforeTotal(a: Date, b: Date)
    ensures !(Before(a, b) && Before(b, a))
    ensures a != b ==> Before(a, b) || Before(b, a)
    ensures !Before(a, a)
  {
  }

  lemma BeforeTransitive(a: Date, b: Date, c: Date)
    requires Before(a, b) && Before(b, c)
    ensures Before(a, c)
  {
  }

  /**
   * A fixed-width numeric field: exactly the characters of `s`, all of
   * them digits.
   */
  function Field(s: string): (r: Option<nat>)
    ensures r.Some? <==> AllDigits(s)
    ensures r.Some? ==> r.value == DigitsValue(s)
  {
    if AllDigits(s) then Some(DigitsValue(s)) else None
  }

  /**
   * Go's time.Parse with the layout "2006-01-02": four year digits, '-',
   * two month digits, '-', two day digits and nothing after; a month
   * outside 1..12 or a day the month does not have is an error.
   */
  function ParseDate(s: string): (r: Option<Date>)
    ensures r.Some? ==> Valid(r.value) && 0 <= r.value.year <= 9999
    ensures r.Some? ==> |s| == 10 && s[4] == '-' && s[7] == '-'
  {
    if |s| != 10 || s[4] != '-' || s[7] != '-' then None
    else
      match (Field(s[..4]), Field(s[5..7]), Field(s[8..]))
      case (Some(y), Some(m), Some(d)) =>
        assert DigitsValue(s[..4]) < Pow10(4) by { DigitsBelowPow10(s[..4]); }
        if 1 <= m <= 12 && 1 <= d <= DaysIn(m, y) then Some(Date(y, m, d)) else None
      case _ => None
  }

  /** A string of k digits denotes a number below 10^k. */
  lemma {:induction false} DigitsBelowPow10(s: string)
    requires AllDigits(s)
    ensures DigitsValue(s) < Pow10(|s|)
    decreases |s|
  {
    if s != [] {
      DigitsBelowPow10(s[..|s| - 1]);
    }
  }

  /** Go's Format with the layout "2006-01-02", for years of at most four digits. */
  function FormatDate(d: Date): (s: string)
    requires Valid(d) && 0 <= d.year <= 9999
    ensures |s| == 10 && s[4] == '-' && s[7] == '-'
  {
    PaddedFields(d);
    ZeroPadded(d.year, 4) + "-" + ZeroPadded(d.month, 2) + "-" + ZeroPadded(d.day, 2)
  }

  /** The year, month and day of a printable date fill four, two and two digits. */
  lemma PaddedFields(d: Date)
    requires Valid(d) && 0 <= d.year <= 9999
    ensures |ZeroPadded(d.year, 4)| == 4 && |ZeroPadded(d.month, 2)| == 2 && |ZeroPadded(d.day, 2)| == 2
  {
    assert Pow10(2) == 100 && Pow10(4) == 10000;
  }

  /** The three digit fields of a printed date, at their fixed positions. */
  lemma FormattedFields(d: Date)
    requires Valid(d) && 0 <= d.year <= 9999
    ensures var s := FormatDate(d);
      && s[..4] == ZeroPadded(d.year, 4) && s[5..7] == ZeroPadded(d.month, 2) && s[8..] == ZeroPadded(d.day, 2)
  {
    PaddedFields(d);
    var s := FormatDate(d);
    var y, m, dd := ZeroPadded(d.year, 4), ZeroPadded(d.month, 2), ZeroPadded(d.day, 2);
    assert s == y + "-" + m + "-" + dd;
    assert s[..4] == y;
    assert s[5..7] == m;
    assert s[8..] == dd;
  }

  /** Parsing a printed date gives the date back. */
  lemma ParseFormat(d: Date)
    requires Valid(d) && 0 <= d.year <= 9999
    ensures ParseDate(FormatDate(d)) == Some(d)
  {
    FormattedFields(d);
  }

  /** A date the parser accepts prints back as exactly the text it was read from. */
  lemma FormatParsed(s: string)
    requires ParseDate(s).Some?
    ensures FormatDate(ParseDate(s).value) == s
  {
    var d := ParseDate(s).value;
    var t := FormatDate(d);
    FormattedFields(d);
    PaddedFields(d);
    DigitsInjective(t[..4], s[..4]);
    DigitsInjective(t[5..7], s[5..7]);
    DigitsInjective(t[8..], s[8..]);
    Reassembled(s);
    Reassembled(t);
  }

  /** A ten-character date text is its three fields joined by dashes. */
  lemma Reassembled(s: string)
    requires |s| == 10 && s[4] == '-' && s[7] == '-'
    ensures s == s[..4] + "-" + s[5..7] + "-" + s[8..]
  {
  }
}
