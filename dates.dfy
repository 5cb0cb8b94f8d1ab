/**
 * Calendar dates as the dashboards handle them: a local civil date (year, month, day)
 * rendered as `YYYY-MM-DD`, and day numbers (days since 1970-01-01, a Thursday) for
 * the arithmetic on weeks and streaks. Turning a day number into a civil date is the
 * platform's `Date` object and is passed in where it is needed.
 */
module Dates {
  import opened Wrappers
  import opened Text

  datatype Date = Date(year: nat, month: nat, day: nat)

  /** A date whose year has four digits, the range the `YYYY-MM-DD` form can express. */
  predicate ValidDate(d: Date) {
    1000 <= d.year <= 9999 && 1 <= d.month <= 12 && 1 <= d.day <= 31
  }

  predicate IsDigit(c: char) {
    '0' <= c <= '9'
  }

  /** The full-date form of section 5.6 of RFC 3339: four digits, '-', two digits, '-', two digits. */
  predicate IsFullDate(s: string) {
    |s| == 10 && s[4] == '-' && s[7] == '-' &&
    forall k :: 0 <= k < 10 && k != 4 && k != 7 ==> IsDigit(s[k])
  }

  /** `${year}-${pad2(month)}-${pad2(day)}`, shared by the two date formatters of the application. */
  function FormatYmd(d: Date): string {
    NatToString(d.year) + "-" + Pad2(d.month) + "-" + Pad2(d.day)
  }

  /** Reads back a full-date string. */
  function ParseYmd(s: string): Option<Date> {
    if IsFullDate(s) then
      assert forall k :: 0 <= k < 4 ==> IsDigit(s[..4][k]);
      assert forall k :: 0 <= k < 2 ==> IsDigit(s[5..7][k]) && IsDigit(s[8..][k]);
      Some(Date(DigitsValue(s[..4]), DigitsValue(s[5..7]), DigitsValue(s[8..])))
    else None
  }

  lemma Pad2OfSmall(n: nat)
    requires 1 <= n <= 99
    ensures |Pad2(n)| == 2 && DigitsValue(Pad2(n)) == n
  {
    Pad2Digits(n);
    DigitsValueOfNatToString(n);
    if n < 10 {
      assert Pad2(n)[..1] == "0";
    } else {
      NatToStringLength(n, 2);
      NatToStringLength(n, 1);
      assert Pow10(2) == 100;
    }
  }

  /** Every valid date formats as an RFC 3339 full-date that reads back as the same date. */
  lemma FormatYmdRoundTrip(d: Date)
    requires ValidDate(d)
    ensures IsFullDate(FormatYmd(d))
    ensures ParseYmd(FormatYmd(d)) == Some(d)
  {
    var y := NatToString(d.year);
    NatToStringLength(d.year, 4);
    NatToStringLength(d.year, 3);
    assert Pow10(3) == 1000 && Pow10(4) == 10000;
    DigitsValueOfNatToString(d.year);
    Pad2OfSmall(d.month);
    Pad2OfSmall(d.day);
    Pad2Digits(d.month);
    Pad2Digits(d.day);
    var s := FormatYmd(d);
    assert s[..4] == y;
    assert s[5..7] == Pad2(d.month);
    assert s[8..] == Pad2(d.day);
  }

  /** `getDay()` of a day number: 0 is Sunday, 1 Monday, ..., 6 Saturday. */
  function Weekday(dayNumber: int): (w: int)
    ensures 0 <= w < 7
  {
    (dayNumber + 4) % 7
  }
}
