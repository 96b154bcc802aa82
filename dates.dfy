/** Calendar dates as `pd.to_datetime(..., errors='coerce')` produces them from
    ISO `YYYY-MM-DD` text, and the year-month key that both `dt.to_period('M')`
    and SQLite's `strftime('%Y-%m', fecha)` group by. */
module Dates {
  import opened Wrappers
  import opened Text

  type MonthNumber = m: int | 1 <= m <= 12 witness 1
  type DayNumber = d: int | 1 <= d <= 31 witness 1

  /** A day of the proleptic Gregorian calendar (a `Timestamp` at midnight). */
  datatype Date = Date(year: int, month: MonthNumber, day: DayNumber)

  predicate IsLeapYear(y: int) {
    (y % 4 == 0 && y % 100 != 0) || y % 400 == 0
  }

  function DaysInMonth(y: int, m: MonthNumber): DayNumber {
    if m == 2 then (if IsLeapYear(y) then 29 else 28)
    else if m == 4 || m == 6 || m == 9 || m == 11 then 30
    else 31
  }

  /** A number that orders dates chronologically (months have at most 31 days). */
  function DayKey(d: Date): int {
    d.year * 10000 + d.month * 100 + d.day
  }

  /** The first and last midnights a nanosecond `pd.Timestamp` can hold
      (its range is 1677-09-21 00:12:43.145224193 to 2262-04-11 23:47:16.854775807). */
  const FirstDay: Date := Date(1677, 9, 22)
  const LastDay: Date := Date(2262, 4, 11)

  /** A date that exists in the calendar and fits in a `pd.Timestamp`. */
  predicate ValidDate(d: Date) {
    d.day <= DaysInMonth(d.year, d.month) && DayKey(FirstDay) <= DayKey(d) <= DayKey(LastDay)
  }

  /** The values a datetime column can hold. */
  type Timestamp = d: Date | ValidDate(d) witness Date(1970, 1, 1)

  /** Coercion of one `fecha` cell: `Some` date for well-formed ISO text naming a
      representable day, `None` (pandas' `NaT`) for everything else. */
  function ParseDate(s: string): (r: Option<Date>)
    ensures r.Some? ==> ValidDate(r.value)
    ensures r.Some? ==> |s| == 10 && s[4] == '-' && s[7] == '-'
  {
    if |s| == 10 && s[4] == '-' && s[7] == '-' &&
       AllDigits(s[..4]) && AllDigits(s[5..7]) && AllDigits(s[8..])
    then
      var y := DecimalValue(s[..4]);
      var m := DecimalValue(s[5..7]);
      var d := DecimalValue(s[8..]);
      if 1 <= m <= 12 && 1 <= d <= 31 && ValidDate(Date(y, m, d)) then Some(Date(y, m, d)) else None
    else None
  }

  /** Well-formed ISO text whose three fields denote a representable date parses to that date. */
  lemma ParseDigits(s: string, d: Date)
    requires |s| == 10 && s[4] == '-' && s[7] == '-'
    requires AllDigits(s[..4]) && AllDigits(s[5..7]) && AllDigits(s[8..])
    requires DecimalValue(s[..4]) == d.year && DecimalValue(s[5..7]) == d.month && DecimalValue(s[8..]) == d.day
    requires ValidDate(d)
    ensures ParseDate(s) == Some(d)
  {
  }

  /** ISO `YYYY-MM-DD` text of a representable date (`Timestamp.strftime('%Y-%m-%d')`). */
  function FormatDate(d: Date): (s: string)
    requires ValidDate(d)
    ensures |s| == 10
  {
    assert Pow10(2) == 100 && Pow10(4) == 10000;
    ZeroPad(d.year, 4) + "-" + ZeroPad(d.month, 2) + "-" + ZeroPad(d.day, 2)
  }

  /** Every representable date survives formatting and re-parsing. */
  lemma ParseFormatRoundTrip(d: Date)
    requires ValidDate(d)
    ensures ParseDate(FormatDate(d)) == Some(d)
  {
    assert Pow10(2) == 100 && Pow10(4) == 10000;
    var y, m, dd := ZeroPad(d.year, 4), ZeroPad(d.month, 2), ZeroPad(d.day, 2);
    var s := FormatDate(d);
    assert s == y + "-" + m + "-" + dd;
    assert s[..4] == y && s[5..7] == m && s[8..] == dd;
  }

  /** The text that makes the cleaner drop a row in the test fixture. */
  lemma InvalidDateIsRejected()
    ensures ParseDate("invalid-date") == None
    ensures ParseDate("2024-02-30") == None
  {
    var s := "2024-02-30";
    assert s[5..7] == ['0', '2'] && s[8..] == ['3', '0'];
    TwoDigitValue('0', '2');
    TwoDigitValue('3', '0');
  }

  /** A calendar month (`Period('M')`). */
  datatype YearMonth = YearMonth(year: int, month: MonthNumber)

  function YearMonthOf(d: Date): YearMonth {
    YearMonth(d.year, d.month)
  }

  /** Months counted from year 0: orders year-months chronologically. */
  function MonthIndex(ym: YearMonth): int {
    ym.year * 12 + ym.month - 1
  }

  lemma MonthIndexInjective(a: YearMonth, b: YearMonth)
    requires MonthIndex(a) == MonthIndex(b)
    ensures a == b
  {
  }
}
