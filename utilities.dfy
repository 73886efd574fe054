/**
  The helpers of src/helpers/utilities.js: annotating a `DD.MM.YYYY` date, or a range of two
  such dates, with its German weekday abbreviation, and the API-key format check. Both
  formatters annotate without validating: whatever the parts say is handed to the Date
  arithmetic of module Calendar, which carries overflowing days and months forward and
  answers NaN for a part that is not a number.
 */
module Utilities {
  import opened Wrappers
  import opened Text
  import Calendar

  /** The German weekday abbreviations, indexed by `getDay()` (Sunday = 0). */
  const WEEKDAYS: seq<string> := ["So", "Mo", "Di", "Mi", "Do", "Fr", "Sa"]

  /** `" (" + weekdays[w] + ")"`: a NaN index finds nothing and prints `undefined`. */
  function Annotation(w: Option<nat>): string {
    " (" + (if w.Some? && w.value < 7 then WEEKDAYS[w.value] else "undefined") + ")"
  }

  /** Every text a formatted date can end with. */
  const ANNOTATIONS: set<string> :=
    {" (So)", " (Mo)", " (Di)", " (Mi)", " (Do)", " (Fr)", " (Sa)", " (undefined)"}

  lemma AnnotationKnown(w: Option<nat>)
    ensures Annotation(w) in ANNOTATIONS
  {
    if w.Some? && w.value < 7 {
      var i := w.value;
      assert i == 0 || i == 1 || i == 2 || i == 3 || i == 4 || i == 5 || i == 6;
      if i == 0 { assert Annotation(w) == " (So)"; }
      else if i == 1 { assert Annotation(w) == " (Mo)"; }
      else if i == 2 { assert Annotation(w) == " (Di)"; }
      else if i == 3 { assert Annotation(w) == " (Mi)"; }
      else if i == 4 { assert Annotation(w) == " (Do)"; }
      else if i == 5 { assert Annotation(w) == " (Fr)"; }
      else { assert Annotation(w) == " (Sa)"; }
    } else {
      assert Annotation(w) == " (undefined)";
    }
  }

  /** `parseInt(…) - 1`: NaN stays NaN. */
  function MinusOne(n: Option<int>): Option<int> {
    if n.Some? then Some(n.value - 1) else None
  }

  /** The weekday the source computes for the three dot-separated parts of a date. */
  function WeekdayOfParts(day: string, month: string, year: string): (w: Option<nat>)
    ensures w.Some? ==> w.value < 7
  {
    Calendar.LocalWeekDay(ParseInt(year), MinusOne(ParseInt(month)), ParseInt(day))
  }

  /**
    `formatDateWithWeekday(dateString)`: a text that does not split into exactly three
    dot-separated parts comes back as it is; any other text comes back followed by
    `" (<weekday>)"`, the text itself untouched.
   */
  function FormatDateWithWeekday(dateString: string): (r: string)
    ensures Count(dateString, '.') != 2 ==> r == dateString
    ensures Count(dateString, '.') == 2 ==>
              |r| > |dateString| && r[..|dateString|] == dateString && r[|dateString|..] in ANNOTATIONS
  {
    var parts := Split(dateString, '.');
    if |parts| != 3 then dateString
    else
      var a := Annotation(WeekdayOfParts(parts[0], parts[1], parts[2]));
      AnnotationKnown(WeekdayOfParts(parts[0], parts[1], parts[2]));
      AppendParts(dateString, a);
      dateString + a
  }

  lemma AppendParts(s: string, a: string)
    ensures (s + a)[..|s|] == s && (s + a)[|s|..] == a
  {
  }

  /** The annotation added to a date made of three dot-free parts, and how it is computed. */
  lemma {:induction false} FormatOfParts(day: string, month: string, year: string)
    requires '.' !in day && '.' !in month && '.' !in year
    ensures FormatDateWithWeekday(day + "." + month + "." + year)
            == day + "." + month + "." + year + Annotation(WeekdayOfParts(day, month, year))
  {
    var s := day + "." + month + "." + year;
    var tail := month + ['.'] + year;
    assert s == day + ['.'] + tail;
    SplitWithoutSeparator(year, '.');
    SplitAtFirst(month, '.', year);
    SplitAtFirst(day, '.', tail);
    assert Split(s, '.') == [day, month, year];
  }

  /** A date whose three parts are numerals gets the weekday `new Date` computes from their values. */
  lemma {:induction false} FormatNumerals(day: string, month: string, year: string)
    requires day != [] && month != [] && year != []
    requires AllDigits(day) && AllDigits(month) && AllDigits(year)
    ensures FormatDateWithWeekday(day + "." + month + "." + year)
            == day + "." + month + "." + year
               + Annotation(Calendar.LocalWeekDay(Some(NumeralValue(year)), Some(NumeralValue(month) - 1),
                                                  Some(NumeralValue(day))))
  {
    FormatOfParts(day, month, year);
    WeekdayOfNumerals(day, month, year);
  }

  lemma WeekdayOfNumerals(day: string, month: string, year: string)
    requires day != [] && month != [] && year != []
    requires AllDigits(day) && AllDigits(month) && AllDigits(year)
    ensures WeekdayOfParts(day, month, year)
            == Calendar.LocalWeekDay(Some(NumeralValue(year)), Some(NumeralValue(month) - 1), Some(NumeralValue(day)))
  {
    ParseNumeral(day);
    ParseNumeral(month);
    ParseNumeral(year);
    WeekdayOfParsed(day, month, year, NumeralValue(year), NumeralValue(month), NumeralValue(day));
  }

  /** The weekday of parts that parse to `y`, `m` and `d`. */
  lemma WeekdayOfParsed(day: string, month: string, year: string, y: int, m: int, d: int)
    requires ParseInt(year) == Some(y) && ParseInt(month) == Some(m) && ParseInt(day) == Some(d)
    ensures WeekdayOfParts(day, month, year) == Calendar.LocalWeekDay(Some(y), Some(m - 1), Some(d))
  {
    WeekdayOfOptions(ParseInt(year), ParseInt(month), ParseInt(day), y, m, d);
  }

  /** The weekday of parse results that are numbers. */
  lemma WeekdayOfOptions(year: Option<int>, month: Option<int>, day: Option<int>, y: int, m: int, d: int)
    requires year == Some(y) && month == Some(m) && day == Some(d)
    ensures Calendar.LocalWeekDay(year, MinusOne(month), day) == Calendar.LocalWeekDay(Some(y), Some(m - 1), Some(d))
  {
  }

  /**
    A real calendar date written with numerals is annotated with its true weekday (for years
    from 100 on, which `new Date` takes literally).
   */
  lemma {:induction false} FormatRealDate(day: string, month: string, year: string)
    requires day != [] && month != [] && year != []
    requires AllDigits(day) && AllDigits(month) && AllDigits(year)
    requires 1 <= NumeralValue(month) <= 12 && NumeralValue(year) >= 100
    requires -Calendar.MAX_DAYS
             <= Calendar.DayNumber(NumeralValue(year), NumeralValue(month), NumeralValue(day))
             <= Calendar.MAX_DAYS
    ensures FormatDateWithWeekday(day + "." + month + "." + year)
            == day + "." + month + "." + year
               + Annotation(Some(Calendar.WeekDay(Calendar.DayNumber(NumeralValue(year), NumeralValue(month),
                                                                     NumeralValue(day)))))
  {
    FormatNumerals(day, month, year);
    Calendar.RealDateWeekDay(NumeralValue(year), NumeralValue(month), NumeralValue(day));
  }

  /** The values of the numerals used in the examples. */
  lemma Numerals()
    ensures NumeralValue("12") == 12 && NumeralValue("14") == 14 && NumeralValue("31") == 31
    ensures NumeralValue("04") == 4 && NumeralValue("05") == 5 && NumeralValue("2025") == 2025
  {
    assert "2025"[..3] == "202" && "202"[..2] == "20" && "20"[..1] == "2" && "2"[..0] == "";
    assert "12"[..1] == "1" && "14"[..1] == "1" && "31"[..1] == "3" && "1"[..0] == "" && "3"[..0] == "";
    assert "04"[..1] == "0" && "05"[..1] == "0" && "0"[..0] == "";
  }

  /** The weekdays of the example dates: 12 May 2025 a Monday, 14 May 2025 a Wednesday. */
  lemma ExampleDays()
    ensures Calendar.WeekDay(Calendar.DayNumber(2025, 5, 12)) == 1
    ensures Calendar.WeekDay(Calendar.DayNumber(2025, 5, 14)) == 3
    ensures -Calendar.MAX_DAYS <= Calendar.DayNumber(2025, 5, 12) <= Calendar.DayNumber(2025, 5, 14) <= Calendar.MAX_DAYS
  {
    ExampleDayNumbers();
  }

  /** The day numbers of 12 and 14 May 2025. */
  lemma ExampleDayNumbers()
    ensures Calendar.DayNumber(2025, 5, 12) == 20220 && Calendar.DayNumber(2025, 5, 14) == 20222
  {
    var base := 365 * 2025 + 2025 / 4 - 2025 / 100 + 2025 / 400 + (153 * 2 + 2) / 5 - 1 - 719468;
    assert 2025 / 4 == 506 && 2025 / 100 == 20 && 2025 / 400 == 5 && (153 * 2 + 2) / 5 == 61;
    assert base == 20208;
  }

  lemma ExampleAnnotations()
    ensures Annotation(Some(1)) == " (Mo)" && Annotation(Some(3)) == " (Mi)" && Annotation(Some(4)) == " (Do)"
  {
  }

  lemma ExampleTexts()
    ensures "12" + "." + "05" + "." + "2025" == "12.05.2025"
    ensures "14" + "." + "05" + "." + "2025" == "14.05.2025"
    ensures "31" + "." + "04" + "." + "2025" == "31.04.2025"
  {
  }

  /** 12 May 2025 was a Monday. */
  lemma FormatExample(s: string)
    requires s == "12.05.2025"
    ensures FormatDateWithWeekday(s) == s + " (Mo)"
  {
    Numerals();
    ExampleDays();
    FormatRealDate("12", "05", "2025");
    ExampleAnnotations();
    ExampleTexts();
  }

  /** 14 May 2025 was a Wednesday. */
  lemma FormatExampleEnd(s: string)
    requires s == "14.05.2025"
    ensures FormatDateWithWeekday(s) == s + " (Mi)"
  {
    Numerals();
    ExampleDays();
    FormatRealDate("14", "05", "2025");
    ExampleAnnotations();
    ExampleTexts();
  }

  /**
    No validity check: a day past the end of its month is annotated with the weekday of the
    matching day of the next month (`"31.04.2025"` gets the weekday of 1 May 2025, a Thursday).
   */
  lemma {:induction false} FormatCarriesOverflow(y: int, m: int, k: int)
    requires 1 <= m <= 12
    ensures Calendar.LocalWeekDay(Some(y), Some(m - 1), Some(Calendar.DaysInMonth(Calendar.FullYear(y), m) + k))
            == Calendar.LocalWeekDay(Some(y), Some(m), Some(k))
  {
    Calendar.MakeDayCarriesDay(Calendar.FullYear(y), m, k);
  }

  lemma OverflowExample(s: string)
    requires s == "31.04.2025"
    ensures FormatDateWithWeekday(s) == s + " (Do)"
  {
    Numerals();
    OverflowDay();
    FormatNumerals("31", "04", "2025");
    ExampleAnnotations();
    ExampleTexts();
  }

  /** Day 31 of month index 3 (April) of 2025 is 1 May 2025, a Thursday. */
  lemma OverflowDay()
    ensures Calendar.LocalWeekDay(Some(2025), Some(3), Some(31)) == Some(4)
  {
    FormatCarriesOverflow(2025, 4, 1);
    Calendar.RealDateWeekDay(2025, 5, 1);
    assert Calendar.DayNumber(2025, 5, 1) == 20209;
  }

  /** A part with no digit where `parseInt` looks for one makes the weekday `undefined`. */
  lemma {:induction false} FormatNonNumeric(day: string, month: string, year: string)
    requires '.' !in day && '.' !in month && '.' !in year
    requires ParseInt(day).None? || ParseInt(month).None? || ParseInt(year).None?
    ensures FormatDateWithWeekday(day + "." + month + "." + year)
            == day + "." + month + "." + year + " (undefined)"
  {
    FormatOfParts(day, month, year);
    Undefined(WeekdayOfParts(day, month, year));
  }

  /** A NaN weekday is written as `undefined`. */
  lemma Undefined(w: Option<nat>)
    requires w.None?
    ensures Annotation(w) == " (undefined)"
  {
  }

  /** A two-digit year is read as a year of the twentieth century: `"01.01.25"` is 1 January 1925. */
  lemma {:induction false} FormatTwoDigitYear(day: string, month: string, year: string)
    requires '.' !in day && '.' !in month && '.' !in year
    requires ParseInt(year).Some? && 0 <= ParseInt(year).value <= 99
    ensures WeekdayOfParts(day, month, year)
            == Calendar.LocalWeekDay(Some(1900 + ParseInt(year).value), MinusOne(ParseInt(month)), ParseInt(day))
  {
  }

  /**
    `formatDateRangeWithWeekdays(dateRange)`: a text with a hyphen is split at its hyphens,
    and the first two pieces are formatted and joined with a hyphen (further pieces are
    lost, no piece is trimmed); a text without one is formatted as a single date.
   */
  function FormatDateRangeWithWeekdays(dateRange: string): (r: string)
    ensures '-' !in dateRange ==> r == FormatDateWithWeekday(dateRange)
    ensures '-' !in dateRange ==> |r| >= |dateRange| && r[..|dateRange|] == dateRange
  {
    // `includes('-')` with a one-character argument is membership of the character.
    if '-' in dateRange then
      var parts := Split(dateRange, '-');
      FormatDateWithWeekday(parts[0]) + "-" + FormatDateWithWeekday(parts[1])
    else
      FormatDateWithWeekday(dateRange)
  }

  /** The two halves of a range are formatted separately and joined with a hyphen. */
  lemma {:induction false} FormatRangeHalves(start: string, end: string)
    requires '-' !in start && '-' !in end
    ensures FormatDateRangeWithWeekdays(start + "-" + end)
            == FormatDateWithWeekday(start) + "-" + FormatDateWithWeekday(end)
  {
    SplitWithoutSeparator(end, '-');
    SplitAtFirst(start, '-', end);
    assert start + "-" + end == start + ['-'] + end;
    assert '-' in start + "-" + end by {
      assert (start + "-" + end)[|start|] == '-';
    }
  }

  /** Whatever follows a second hyphen is dropped. */
  lemma {:induction false} FormatRangeDropsRest(start: string, end: string, rest: string)
    requires '-' !in start && '-' !in end
    ensures FormatDateRangeWithWeekdays(start + "-" + end + "-" + rest)
            == FormatDateWithWeekday(start) + "-" + FormatDateWithWeekday(end)
  {
    SplitTwoHyphens(start, end, rest);
    RangeOfPieces(start + "-" + end + "-" + rest, start, end);
  }

  lemma {:induction false} SplitTwoHyphens(start: string, end: string, rest: string)
    requires '-' !in start && '-' !in end
    ensures '-' in start + "-" + end + "-" + rest
    ensures Split(start + "-" + end + "-" + rest, '-') == [start, end] + Split(rest, '-')
  {
    SplitAtFirst(end, '-', rest);
    Regroup(start + "-", end, "-", rest);
    SplitAtFirst(start, '-', end + ['-'] + rest);
  }

  lemma RangeOfPieces(s: string, start: string, end: string)
    requires '-' in s && |Split(s, '-')| >= 2 && Split(s, '-')[0] == start && Split(s, '-')[1] == end
    ensures FormatDateRangeWithWeekdays(s) == FormatDateWithWeekday(start) + "-" + FormatDateWithWeekday(end)
  {
  }

  /** `"12.05.2025-14.05.2025"` becomes `"12.05.2025 (Mo)-14.05.2025 (Mi)"`. */
  lemma RangeExample(s: string)
    requires s == "12.05.2025-14.05.2025"
    ensures FormatDateRangeWithWeekdays(s) == "12.05.2025 (Mo)-14.05.2025 (Mi)"
  {
    var start, end := "12.05.2025", "14.05.2025";
    FormatExample(start);
    FormatExampleEnd(end);
    RangeExampleTexts();
    RangeOfFormattedHalves(s, start, end, start + " (Mo)", end + " (Mi)");
  }

  lemma RangeExampleTexts()
    ensures "12.05.2025-14.05.2025" == "12.05.2025" + "-" + "14.05.2025"
    ensures "12.05.2025 (Mo)-14.05.2025 (Mi)" == "12.05.2025" + " (Mo)" + "-" + ("14.05.2025" + " (Mi)")
    ensures '-' !in "12.05.2025" && '-' !in "14.05.2025"
  {
  }

  lemma RangeOfFormattedHalves(s: string, start: string, end: string, a: string, b: string)
    requires '-' !in start && '-' !in end && s == start + "-" + end
    requires FormatDateWithWeekday(start) == a && FormatDateWithWeekday(end) == b
    ensures FormatDateRangeWithWeekdays(s) == a + "-" + b
  {
    FormatRangeHalves(start, end);
  }

  /**
    `isValidApiKeyFormat(apiKey)`: true for a string that starts with `sk-` and is longer than
    40 characters; false for anything else, a non-string (here None) included.
   */
  function IsValidApiKeyFormat(apiKey: Option<string>): bool {
    apiKey.Some? && StartsWith(apiKey.value, "sk-") && |apiKey.value| > 40
  }

  /** Only the first three characters and the length are looked at. */
  lemma ApiKeyFormatIsPrefixAndLength(a: string, b: string)
    requires IsValidApiKeyFormat(Some(a))
    requires |b| == |a| && b[..3] == a[..3]
    ensures IsValidApiKeyFormat(Some(b))
  {
  }

  /** Examples: a non-string, a short key, and keys of 41 and 51 characters. */
  lemma ApiKeyFormatExamples()
    ensures !IsValidApiKeyFormat(None)
    ensures !IsValidApiKeyFormat(Some("sk-short"))
    ensures IsValidApiKeyFormat(Some("sk-" + "abcdefghijklmnopqrstuvwxyz" + "ABCDEFGHIJKLMNOPQRSTUV"))
    ensures IsValidApiKeyFormat(Some("sk-" + "                  " + "--------------------"))
    ensures !IsValidApiKeyFormat(Some("SK-" + "abcdefghijklmnopqrstuvwxyz" + "ABCDEFGHIJKLMNOPQRSTUV"))
  {
    assert ("SK-" + "abcdefghijklmnopqrstuvwxyz" + "ABCDEFGHIJKLMNOPQRSTUV")[0] == 'S';
  }
}
