/**
  Proleptic Gregorian day arithmetic standing for what `new Date(year, monthIndex, day)`
  followed by `getDay()` computes (ECMA-262, sections 21.4.1 and 21.4.2.1): the month index
  counts from 0 and is carried into the year, the day of the month may lie outside the
  month and is carried into neighbouring months, years 0 to 99 mean 1900 to 1999, and a
  date farther than 100,000,000 days from 1 January 1970 is an invalid Date whose
  weekday is NaN.
 */
module Calendar {
  import opened Wrappers

  /** The Gregorian leap-year rule, applied to every year, year 0 and negative years included. */
  predicate IsLeapYear(y: int) {
    y % 4 == 0 && (y % 100 != 0 || y % 400 == 0)
  }

  function DaysInMonth(y: int, m: int): (n: int)
    requires 1 <= m <= 12
    ensures 28 <= n <= 31
    ensures n == 29 <==> m == 2 && IsLeapYear(y)
  {
    if m == 2 then (if IsLeapYear(y) then 29 else 28)
    else if m == 4 || m == 6 || m == 9 || m == 11 then 30
    else 31
  }

  /**
    Days from 1 January 1970 to day `d` of month `m` (1 to 12) of year `y`. The day may lie
    outside the month: day 0 is the last day of the month before, day 32 of January is
    1 February.
   */
  function DayNumber(y: int, m: int, d: int): int
    requires 1 <= m <= 12
  {
    // Years are counted from March, so that a leap day falls at the end of its counting year.
    var cy := if m <= 2 then y - 1 else y;
    var mp := if m <= 2 then m + 9 else m - 3;
    365 * cy + cy / 4 - cy / 100 + cy / 400 + (153 * mp + 2) / 5 + d - 1 - 719468
  }

  /** 1 January 1970 is day 0. */
  lemma EpochIsDayZero()
    ensures DayNumber(1970, 1, 1) == 0
  {
  }

  /** How many multiples of `k` the step from `y - 1` to `y` passes. */
  lemma FloorStep(y: int, k: int)
    requires k == 4 || k == 100 || k == 400
    ensures y / k - (y - 1) / k == if y % k == 0 then 1 else 0
  {
    var q := (y - 1) / k;
    var r := (y - 1) % k;
    assert y - 1 == k * q + r && 0 <= r < k;
    if r == k - 1 {
      assert y == k * (q + 1) + 0;
    } else {
      assert y == k * q + (r + 1);
    }
  }

  /** The day after the last day of a month is the first day of the next month. */
  lemma {:induction false} NextMonth(y: int, m: int)
    requires 1 <= m < 12
    ensures DayNumber(y, m + 1, 1) == DayNumber(y, m, DaysInMonth(y, m)) + 1
  {
    if m == 2 {
      EndOfFebruary(y);
    }
  }

  /** 1 March follows the last day of February, 28 or 29 as the year is a leap year or not. */
  lemma EndOfFebruary(y: int)
    ensures DayNumber(y, 3, 1) == DayNumber(y, 2, DaysInMonth(y, 2)) + 1
  {
    FloorStep(y, 4);
    FloorStep(y, 100);
    FloorStep(y, 400);
  }

  /** The day after 31 December is 1 January of the next year. */
  lemma NextYear(y: int)
    ensures DayNumber(y + 1, 1, 1) == DayNumber(y, 12, 31) + 1
  {
  }

  /** The number of days in a year is 366 for a leap year and 365 otherwise. */
  lemma {:induction false} YearLength(y: int)
    ensures DayNumber(y + 1, 1, 1) - DayNumber(y, 1, 1) == if IsLeapYear(y) then 366 else 365
  {
    // From 1 January to 1 March, then from 1 March to 1 January of the next year.
    NextMonth(y, 1);
    NextMonth(y, 2);
    assert DayNumber(y, 3, 1) - DayNumber(y, 1, 1) == 31 + DaysInMonth(y, 2);
  }

  // ---------------------------------------------------------------------------
  // JavaScript Date
  // ---------------------------------------------------------------------------

  /** The largest distance of a valid Date from 1 January 1970, in days (8.64e15 ms, TimeClip). */
  const MAX_DAYS := 100_000_000

  /** `MakeDay(year, month, date)`: the month index counts from 0 and its overflow moves the year. */
  function MakeDay(year: int, monthIndex: int, date: int): int {
    DayNumber(year + monthIndex / 12, monthIndex % 12 + 1, date)
  }

  /** The year `new Date(year, …)` uses: 0 to 99 stand for 1900 to 1999. */
  function FullYear(year: int): (y: int)
    ensures 0 <= year <= 99 ==> y == 1900 + year
    ensures (year < 0 || year > 99) ==> y == year
  {
    if 0 <= year <= 99 then 1900 + year else year
  }

  /** `WeekDay(t)`: 0 for Sunday up to 6 for Saturday; 1 January 1970 was a Thursday. */
  function WeekDay(day: int): (w: nat)
    ensures w < 7
  {
    (day + 4) % 7
  }

  /** Consecutive days have consecutive weekdays. */
  lemma WeekDayNext(day: int)
    ensures WeekDay(day + 1) == (WeekDay(day) + 1) % 7
  {
  }

  /**
    `new Date(year, monthIndex, date).getDay()`, where each argument may be NaN (None): None
    when an argument is NaN or the day lies outside the range of valid Dates.
   */
  function LocalWeekDay(year: Option<int>, monthIndex: Option<int>, date: Option<int>): (w: Option<nat>)
    ensures w.Some? ==> w.value < 7
    ensures w.Some? <==> year.Some? && monthIndex.Some? && date.Some?
                         && -MAX_DAYS <= MakeDay(FullYear(year.value), monthIndex.value, date.value) <= MAX_DAYS
  {
    if year.None? || monthIndex.None? || date.None? then None
    else
      var day := MakeDay(FullYear(year.value), monthIndex.value, date.value);
      if -MAX_DAYS <= day <= MAX_DAYS then Some(WeekDay(day)) else None
  }

  /** For a month index 0 to 11, `MakeDay` is the calendar's day number. */
  lemma MakeDayInYear(y: int, m: int, d: int)
    requires 1 <= m <= 12
    ensures MakeDay(y, m - 1, d) == DayNumber(y, m, d)
  {
  }

  /** A real date of a year from 100 on gets the weekday of its day number. */
  lemma RealDateWeekDay(y: int, m: int, d: int)
    requires 1 <= m <= 12 && y >= 100
    requires -MAX_DAYS <= DayNumber(y, m, d) <= MAX_DAYS
    ensures LocalWeekDay(Some(y), Some(m - 1), Some(d)) == Some(WeekDay(DayNumber(y, m, d)))
  {
    MakeDayInYear(y, m, d);
  }

  /** A day past the end of a month is read as a day of the month after. */
  lemma {:induction false} MakeDayCarriesDay(y: int, m: int, k: int)
    requires 1 <= m <= 12
    ensures MakeDay(y, m - 1, DaysInMonth(y, m) + k) == MakeDay(y, m, k)
  {
    MakeDayInYear(y, m, DaysInMonth(y, m) + k);
    if m < 12 {
      NextMonth(y, m);
      MakeDayInYear(y, m + 1, k);
    } else {
      assert MakeDay(y, m, k) == DayNumber(y + 1, 1, k);
    }
  }

  /** A month index past December is read as a month of the year after. */
  lemma MakeDayCarriesMonth(y: int, monthIndex: int, d: int)
    ensures MakeDay(y, monthIndex + 12, d) == MakeDay(y + 1, monthIndex, d)
  {
    assert (monthIndex + 12) / 12 == monthIndex / 12 + 1;
    assert (monthIndex + 12) % 12 == monthIndex % 12;
  }
}
