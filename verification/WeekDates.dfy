/**
 * ISO week dates ("2026-W32-1") as Python's `date.fromisoformat` reads them: section 4.1.4 of ISO 8601:2004,
 * weeks from Monday, the first being the one that holds 4 January.
 */
module WeekDates {
  import opened Calls
  import opened Gregorian

  /** Monday is 0. */
  function Weekday(ordinal: int): int { (ordinal + 6) % 7 }

  function NewYear(y: int): int { DaysBeforeYear(y) + 1 }

  /** The Monday of the first week of a year that starts on this day: its own week's up to Thursday. */
  function MondayFor(newYear: int): int {
    newYear - Weekday(newYear) + (if Weekday(newYear) > 3 then 7 else 0)
  }

  function FirstMonday(y: int): int { MondayFor(NewYear(y)) }

  /** A year has a 53rd week when it starts on a Thursday, or is a leap year and starts on a Wednesday. */
  function WeeksFor(weekday: int, leap: bool): int { if weekday == 3 || (weekday == 2 && leap) then 53 else 52 }

  function Weeks(y: int): int { WeeksFor(Weekday(NewYear(y)), Leap(y)) }

  /** Four characters, a dash, a W, two, a dash, one. */
  predicate WeekShaped(s: string) { |s| == 10 && s[4] == '-' && s[5] == 'W' && s[8] == '-' }

  predicate WeekNumeric(s: string)
    requires WeekShaped(s)
  {
    IsDigit(s[0]) && IsDigit(s[1]) && IsDigit(s[2]) && IsDigit(s[3]) && IsDigit(s[6]) && IsDigit(s[7]) && IsDigit(s[9])
  }

  datatype WeekDate = WeekDate(year: int, week: int, day: int)

  predicate ValidWeek(d: WeekDate) { 1 <= d.year <= 9999 && 1 <= d.week <= Weeks(d.year) && 1 <= d.day <= 7 }

  function DayOf(d: WeekDate): int { FirstMonday(d.year) + 7 * (d.week - 1) + d.day - 1 }

  function ReadWeek(s: string): WeekDate
    requires WeekShaped(s)
  {
    WeekDate(Value(s[0]) * 1000 + Value(s[1]) * 100 + Value(s[2]) * 10 + Value(s[3]),
             Value(s[6]) * 10 + Value(s[7]), Value(s[9]))
  }

  /** The ordinal of the day, if the calendar still has it. */
  function WeekOrdinal(s: string): Option<int>
    requires WeekShaped(s)
  {
    var d := ReadWeek(s);
    if WeekNumeric(s) && ValidWeek(d) && DayOf(d) <= Ordinal(LAST) then Some(DayOf(d)) else None
  }

  lemma DaysLater(n: int, k: int)
    ensures Weekday(n + k) == (Weekday(n) + k) % 7
  {
  }

  lemma FirstWeekFrom(newYear: int)
    ensures Weekday(MondayFor(newYear)) == 0 && MondayFor(newYear) <= newYear + 3 < MondayFor(newYear) + 7
  {
    DaysLater(newYear, MondayFor(newYear) - newYear);
  }

  /** The first week begins on a Monday and holds 4 January. */
  lemma FirstWeekHoldsJanuary4(y: int)
    ensures Weekday(FirstMonday(y)) == 0
    ensures FirstMonday(y) <= Ordinal(Date(y, 1, 4)) < FirstMonday(y) + 7
  {
    FirstWeekFrom(NewYear(y));
    assert DaysBeforeMonth(y, 1) == 0;
  }

  lemma WeeksMeetFrom(newYear: int, weekday: int, leap: bool, days: int)
    requires weekday == Weekday(newYear) && days == if leap then 366 else 365
    ensures MondayFor(newYear + days) == MondayFor(newYear) + 7 * WeeksFor(weekday, leap)
  {
    DaysLater(newYear, days);
    assert (weekday + days) % 7 == if leap then (weekday + 2) % 7 else (weekday + 1) % 7;
  }

  /** The weeks of a year end where those of the next begin, so 52 or 53 of them is the right number. */
  lemma WeeksMeet(y: int)
    ensures FirstMonday(y + 1) == FirstMonday(y) + 7 * Weeks(y)
  {
    YearsAddUp(y);
    WeeksMeetFrom(NewYear(y), Weekday(NewYear(y)), Leap(y), DaysInYear(y));
  }

  /** Week dates are days in order: years by weeks by days, no day twice. */
  predicate WeekBefore(c: WeekDate, d: WeekDate) {
    c.year < d.year || (c.year == d.year && (c.week < d.week || (c.week == d.week && c.day < d.day)))
  }

  lemma {:induction false} LaterFirstMondays(y: int, z: int)
    requires y < z
    ensures FirstMonday(y) + 7 * Weeks(y) <= FirstMonday(z)
    decreases z - y
  {
    WeeksMeet(y);
    if y + 1 < z { LaterFirstMondays(y + 1, z); }
  }

  lemma WeekBeforeIsLess(c: WeekDate, d: WeekDate)
    requires ValidWeek(c) && ValidWeek(d) && WeekBefore(c, d)
    ensures DayOf(c) < DayOf(d)
  {
    if c.year < d.year { LaterFirstMondays(c.year, d.year); }
  }

  /** A week date is known by its day, and days are ordered as their week dates are. */
  lemma WeekDatesOrder(c: WeekDate, d: WeekDate)
    requires ValidWeek(c) && ValidWeek(d)
    ensures DayOf(c) < DayOf(d) <==> WeekBefore(c, d)
    ensures DayOf(c) == DayOf(d) <==> c == d
  {
    if WeekBefore(c, d) { WeekBeforeIsLess(c, d); }
    if WeekBefore(d, c) { WeekBeforeIsLess(d, c); }
  }

  // --- text -----------------------------------------------------------------------------------------

  /** "YYYY-Www-D" */
  function IsoWeek(d: WeekDate): string {
    [Digit(d.year / 1000), Digit(d.year / 100), Digit(d.year / 10), Digit(d.year)]
    + "-W" + Two(d.week) + "-" + [Digit(d.day)]
  }

  /** A week date of a year that has this week, on a day the calendar still has. */
  predicate InCalendar(d: WeekDate) {
    && 1 <= d.year && d.year <= 9999 && 1 <= d.week && d.week <= Weeks(d.year) && 1 <= d.day && d.day <= 7
    && DayOf(d) <= Ordinal(LAST)
  }

  lemma IsoWeekCharacters(d: WeekDate)
    ensures var s := IsoWeek(d);
      && |s| == 10 && s[4] == '-' && s[5] == 'W' && s[8] == '-'
      && s[0] == Digit(d.year / 1000) && s[1] == Digit(d.year / 100) && s[2] == Digit(d.year / 10)
      && s[3] == Digit(d.year) && s[6] == Digit(d.week / 10) && s[7] == Digit(d.week) && s[9] == Digit(d.day)
  {
  }

  lemma TextIsRead(d: WeekDate)
    requires 0 <= d.year <= 9999 && 0 <= d.week <= 99 && 0 <= d.day <= 9
    ensures var s := IsoWeek(d); WeekShaped(s) && WeekNumeric(s) && ReadWeek(s) == d
  {
    IsoWeekCharacters(d);
    DigitsAreDigits(Date(d.year, d.week, d.day));
    FourDigits(d.year);
    TwoDigits(d.week);
  }

  lemma ReadIsText(s: string)
    requires WeekShaped(s) && WeekNumeric(s)
    ensures IsoWeek(ReadWeek(s)) == s
  {
    ReadYear(Value(s[0]), Value(s[1]), Value(s[2]), Value(s[3]));
    TwoReadBack(s[6], s[7]);
    IsoWeekCharacters(ReadWeek(s));
  }

  lemma WeekReadsBack(d: WeekDate, s: string)
    requires InCalendar(d) && s == IsoWeek(d)
    ensures WeekShaped(s) && WeekOrdinal(s) == Some(DayOf(d))
  {
    TextIsRead(d);
  }

  lemma WeekReadIsIso(s: string, d: WeekDate)
    requires WeekShaped(s) && WeekOrdinal(s).Some? && d == ReadWeek(s)
    ensures InCalendar(d) && s == IsoWeek(d) && WeekOrdinal(s) == Some(DayOf(d))
  {
    ReadIsText(s);
  }

  /** A text is read as this day if and only if it is the text of a week date that falls on it. */
  lemma WeekIsReadIff(s: string, n: int)
    ensures WeekShaped(s) && WeekOrdinal(s) == Some(n) <==>
      exists d :: InCalendar(d) && DayOf(d) == n && IsoWeek(d) == s
  {
    if WeekShaped(s) && WeekOrdinal(s) == Some(n) { WeekReadIsIso(s, ReadWeek(s)); }
    if d :| InCalendar(d) && DayOf(d) == n && IsoWeek(d) == s { WeekReadsBack(d, s); }
  }

  /** Monday 3 and Friday 7 August 2026. */
  lemma August2026()
    ensures WeekShaped("2026-W32-1") && WeekOrdinal("2026-W32-1") == Some(Ordinal(Date(2026, 8, 3)))
    ensures WeekShaped("2026-W32-5") && WeekOrdinal("2026-W32-5") == Some(Ordinal(Date(2026, 8, 7)))
  {
    assert NewYear(2026) == 739617 && Weekday(739617) == 3;
    assert DaysBeforeMonth(2026, 8) == 212 by {
      assert DaysBeforeMonth(2026, 3) == 59;
      assert DaysBeforeMonth(2026, 5) == 120;
      assert DaysBeforeMonth(2026, 7) == 181;
    }
    assert DaysBeforeMonth(9999, 12) >= 0 by { LaterMonths(9999, 1, 12); }
  }
}
