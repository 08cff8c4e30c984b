/** Calendar dates as Python's `datetime.date` holds them, and the ISO 8601
    calendar-date text `YYYY-MM-DD` that `date.isoformat()` produces. */
module Dates {
  import opened Digits

  /** Python's `datetime.MINYEAR` and `datetime.MAXYEAR`. */
  const MinYear: int := 1
  const MaxYear: int := 9999

  datatype Date = Date(year: int, month: int, day: int)

  /** Gregorian leap years, as `calendar.isleap`. */
  predicate IsLeapYear(year: int) {
    year % 4 == 0 && (year % 100 != 0 || year % 400 == 0)
  }

  function DaysInMonth(year: int, month: int): (n: int)
    requires 1 <= month <= 12
    ensures 28 <= n <= 31
  {
    if month == 2 then (if IsLeapYear(year) then 29 else 28)
    else if month == 4 || month == 6 || month == 9 || month == 11 then 30
    else 31
  }

  /** The dates a `datetime.date` object can hold. */
  predicate ValidDate(d: Date) {
    MinYear <= d.year <= MaxYear && 1 <= d.month <= 12 && 1 <= d.day <= DaysInMonth(d.year, d.month)
  }

  type CalendarDate = d: Date | ValidDate(d) witness Date(1, 1, 1)

  /** `date.isoformat()`: four-digit year, two-digit month and day, each zero-padded. */
  function IsoFormat(d: CalendarDate): (s: string)
    ensures |s| == 10 && s[4] == '-' && s[7] == '-'
  {
    PadDigits(d.year, 4) + "-" + PadDigits(d.month, 2) + "-" + PadDigits(d.day, 2)
  }

  /** Reading the three digit fields of `IsoFormat(d)` gives back year, month and day. */
  lemma IsoFormatFields(d: CalendarDate)
    ensures forall i :: 0 <= i < 4 ==> IsDigit(IsoFormat(d)[i])
    ensures forall i :: 5 <= i < 7 ==> IsDigit(IsoFormat(d)[i])
    ensures forall i :: 8 <= i < 10 ==> IsDigit(IsoFormat(d)[i])
    ensures DecimalValue(IsoFormat(d)[0..4]) == d.year
    ensures DecimalValue(IsoFormat(d)[5..7]) == d.month
    ensures DecimalValue(IsoFormat(d)[8..10]) == d.day
  {
    var s := IsoFormat(d);
    assert s[0..4] == PadDigits(d.year, 4);
    assert s[5..7] == PadDigits(d.month, 2);
    assert s[8..10] == PadDigits(d.day, 2);
    assert Pow10(4) == 10000 && Pow10(2) == 100;
    PadDigitsRoundTrip(d.year, 4);
    PadDigitsRoundTrip(d.month, 2);
    PadDigitsRoundTrip(d.day, 2);
  }

  /** Distinct dates have distinct ISO texts. */
  lemma IsoFormatInjective(d: CalendarDate, e: CalendarDate)
    ensures IsoFormat(d) == IsoFormat(e) <==> d == e
  {
    if IsoFormat(d) == IsoFormat(e) {
      IsoFormatFields(d);
      IsoFormatFields(e);
    }
  }

  lemma IsoFormatExample()
    ensures IsoFormat(Date(2018, 9, 5)) == "2018-09-05"
    ensures IsoFormat(Date(7, 12, 31)) == "0007-12-31"
  {
  }
}
