/**
 * Days of the proleptic Gregorian calendar in the range Python's `date` covers, their ordinals, and
 * the ISO 8601 calendar-date text.
 */
module Gregorian {
  import opened Calls

  datatype Date = Date(year: int, month: int, day: int)

  const FIRST := Date(1, 1, 1)
  const LAST := Date(9999, 12, 31)

  predicate Leap(y: int) { y % 4 == 0 && (y % 100 != 0 || y % 400 == 0) }

  function DaysInYear(y: int): int { if Leap(y) then 366 else 365 }

  function DaysInMonth(y: int, m: int): int {
    if m == 2 then (if Leap(y) then 29 else 28) else if m == 4 || m == 6 || m == 9 || m == 11 then 30 else 31
  }

  /** The lengths of the months, one by one. */
  lemma MonthsAre(y: int, m: int)
    requires 1 <= m <= 12
    ensures var february := if y % 400 == 0 || (y % 4 == 0 && y % 100 != 0) then 29 else 28;
      DaysInMonth(y, m) == [31, february, 31, 30, 31, 30, 31, 31, 30, 31, 30, 31][m - 1]
  {
  }

  predicate Valid(d: Date) {
    1 <= d.year <= 9999 && 1 <= d.month <= 12 && 1 <= d.day <= DaysInMonth(d.year, d.month)
  }

  /** `d + timedelta(days=1)`, which overflows only on the last day. */
  function NextDay(d: Date): (n: Date)
    requires Valid(d) && d != LAST
    ensures Valid(n) && n != FIRST
  {
    if d.day < DaysInMonth(d.year, d.month) then Date(d.year, d.month, d.day + 1)
    else if d.month < 12 then Date(d.year, d.month + 1, 1)
    else Date(d.year + 1, 1, 1)
  }

  /** `d - timedelta(days=1)`, which overflows only on the first day. */
  function PrevDay(d: Date): (p: Date)
    requires Valid(d) && d != FIRST
    ensures Valid(p) && p != LAST
  {
    if d.day > 1 then Date(d.year, d.month, d.day - 1)
    else if d.month > 1 then Date(d.year, d.month - 1, DaysInMonth(d.year, d.month - 1))
    else Date(d.year - 1, 12, 31)
  }

  lemma PrevUndoesNext(d: Date)
    requires Valid(d) && d != LAST
    ensures PrevDay(NextDay(d)) == d
  {
    assert DaysInMonth(d.year, 12) == 31;
  }

  lemma NextUndoesPrev(d: Date)
    requires Valid(d) && d != FIRST
    ensures NextDay(PrevDay(d)) == d
  {
    assert DaysInMonth(d.year, 12) == 31;
  }

  // --- ordinals -------------------------------------------------------------------------------------

  function DaysBeforeMonth(y: int, m: int): int
    requires 1 <= m
  {
    if m == 1 then 0 else DaysBeforeMonth(y, m - 1) + DaysInMonth(y, m - 1)
  }

  /** `date.toordinal`, in Python's closed form. */
  function Ordinal(d: Date): int
    requires 1 <= d.month
  {
    DaysBeforeYear(d.year) + DaysBeforeMonth(d.year, d.month) + d.day
  }

  function DaysBeforeYear(y: int): int { (y - 1) * 365 + (y - 1) / 4 - (y - 1) / 100 + (y - 1) / 400 }

  lemma FourthYears(y: int)
    ensures y / 4 - (y - 1) / 4 == if y % 4 == 0 then 1 else 0
  {
  }

  lemma Centuries(y: int)
    ensures y / 100 - (y - 1) / 100 == if y % 100 == 0 then 1 else 0
  {
  }

  lemma FourthCenturies(y: int)
    ensures y / 400 - (y - 1) / 400 == if y % 400 == 0 then 1 else 0
  {
  }

  lemma HundredsAreFours(y: int)
    requires y % 100 == 0
    ensures y % 4 == 0
  {
    assert y == 4 * (25 * (y / 100));
  }

  lemma FourHundredsAreHundreds(y: int)
    requires y % 400 == 0
    ensures y % 100 == 0
  {
    assert y == 100 * (4 * (y / 400));
  }

  /** Counting every fourth year, less the centuries, plus every fourth of them, counts the leap years. */
  lemma LeapDays(fourth: bool, century: bool, fourthCentury: bool)
    requires (century ==> fourth) && (fourthCentury ==> century)
    ensures (if fourth then 1 else 0) - (if century then 1 else 0) + (if fourthCentury then 1 else 0)
      == if fourth && (!century || fourthCentury) then 1 else 0
  {
  }

  lemma YearsAddUp(y: int)
    ensures DaysBeforeYear(y + 1) == DaysBeforeYear(y) + DaysInYear(y)
  {
    FourthYears(y);
    Centuries(y);
    FourthCenturies(y);
    if y % 100 == 0 { HundredsAreFours(y); }
    if y % 400 == 0 { FourHundredsAreHundreds(y); }
    LeapDays(y % 4 == 0, y % 100 == 0, y % 400 == 0);
  }

  lemma MonthsAddUp(y: int)
    ensures DaysBeforeMonth(y, 12) + 31 == DaysInYear(y)
  {
    assert DaysBeforeMonth(y, 2) == 31;
    assert DaysBeforeMonth(y, 3) == 31 + DaysInMonth(y, 2);
    assert DaysBeforeMonth(y, 5) == DaysBeforeMonth(y, 3) + 61;
    assert DaysBeforeMonth(y, 7) == DaysBeforeMonth(y, 5) + 61;
    assert DaysBeforeMonth(y, 9) == DaysBeforeMonth(y, 7) + 62;
    assert DaysBeforeMonth(y, 11) == DaysBeforeMonth(y, 9) + 61;
  }

  lemma NextDayAddsOne(d: Date)
    requires Valid(d) && d != LAST
    ensures Ordinal(NextDay(d)) == Ordinal(d) + 1
  {
    if d.month == 12 && d.day == 31 {
      MonthsAddUp(d.year);
      YearsAddUp(d.year);
    }
  }

  predicate Before(d: Date, e: Date) {
    d.year < e.year || (d.year == e.year && (d.month < e.month || (d.month == e.month && d.day < e.day)))
  }

  lemma {:induction false} LaterMonths(y: int, m: int, n: int)
    requires 1 <= m < n
    ensures DaysBeforeMonth(y, m) + DaysInMonth(y, m) <= DaysBeforeMonth(y, n)
    decreases n
  {
    if m + 1 < n { LaterMonths(y, m, n - 1); }
  }

  lemma {:induction false} LaterYears(y: int, z: int)
    requires y < z
    ensures DaysBeforeYear(y) + DaysInYear(y) <= DaysBeforeYear(z)
    decreases z - y
  {
    YearsAddUp(y);
    if y + 1 < z { LaterYears(y + 1, z); }
  }

  lemma DayOfYear(d: Date)
    requires Valid(d)
    ensures 1 <= DaysBeforeMonth(d.year, d.month) + d.day <= DaysInYear(d.year)
  {
    MonthsAddUp(d.year);
    if d.month < 12 { LaterMonths(d.year, d.month, 12); }
    if d.month > 1 { LaterMonths(d.year, 1, d.month); }
  }

  lemma BeforeIsLess(d: Date, e: Date)
    requires Valid(d) && Valid(e) && Before(d, e)
    ensures Ordinal(d) < Ordinal(e)
  {
    if d.year < e.year {
      DayOfYear(d);
      DayOfYear(e);
      LaterYears(d.year, e.year);
    } else if d.month < e.month {
      LaterMonths(d.year, d.month, e.month);
    }
  }

  /** Ordinals order days as the calendar does, so a date is known by its ordinal. */
  lemma OrdinalsOrder(d: Date, e: Date)
    requires Valid(d) && Valid(e)
    ensures Ordinal(d) < Ordinal(e) <==> Before(d, e)
    ensures Ordinal(d) == Ordinal(e) <==> d == e
  {
    if Before(d, e) { BeforeIsLess(d, e); }
    if Before(e, d) { BeforeIsLess(e, d); }
  }

  /** `n` days after `d`, one day at a time; None once past the last day. */
  function Plus(d: Date, n: nat): Option<Date>
    requires Valid(d)
    decreases n
  {
    if n == 0 then Some(d) else if d == LAST then None else Plus(NextDay(d), n - 1)
  }

  /** Walking from `d` to `e` takes as many days as their ordinals differ by. */
  lemma {:induction false} PlusReaches(d: Date, e: Date)
    requires Valid(d) && Valid(e) && Ordinal(d) <= Ordinal(e)
    ensures Plus(d, Ordinal(e) - Ordinal(d)) == Some(e)
    decreases Ordinal(e) - Ordinal(d)
  {
    OrdinalsOrder(d, e);
    if d != e {
      assert d != LAST;
      NextDayAddsOne(d);
      PlusReaches(NextDay(d), e);
    }
  }

  // --- text -----------------------------------------------------------------------------------------

  predicate IsDigit(c: char) { '0' <= c <= '9' }

  function Digit(n: int): char { (48 + n % 10) as char }

  function Value(c: char): int { c as int - 48 }

  function Two(n: int): string { [Digit(n / 10), Digit(n)] }

  function Iso(d: Date): string {
    [Digit(d.year / 1000), Digit(d.year / 100), Digit(d.year / 10), Digit(d.year)]
    + "-" + Two(d.month) + "-" + Two(d.day)
  }

  /** Four characters, a dash, two, a dash, two. */
  predicate Shaped(s: string) { |s| == 10 && s[4] == '-' && s[7] == '-' }

  predicate Numeric(s: string)
    requires Shaped(s)
  {
    IsDigit(s[0]) && IsDigit(s[1]) && IsDigit(s[2]) && IsDigit(s[3]) && IsDigit(s[5]) && IsDigit(s[6]) && IsDigit(s[9])
  }

  function Read(s: string): Date
    requires Shaped(s)
  {
    Date(Value(s[0]) * 1000 + Value(s[1]) * 100 + Value(s[2]) * 10 + Value(s[3]),
         Value(s[5]) * 10 + Value(s[6]),
         (if s[8] == ' ' then 0 else Value(s[8]) * 10) + Value(s[9]))
  }

  function Checked(d: Date): Option<Date> { if Valid(d) then Some(d) else None }

  /** `date.fromisoformat` on a text of this shape. */
  function FromIso(s: string): Option<Date>
    requires Shaped(s)
  {
    if Numeric(s) && IsDigit(s[8]) then Checked(Read(s)) else None
  }

  /** `datetime.strptime(s, "%Y-%m-%d")`, which also takes a day padded with a space. */
  function Strptime(s: string): Option<Date>
    requires Shaped(s)
  {
    if Numeric(s) && (IsDigit(s[8]) || s[8] == ' ') then Checked(Read(s)) else None
  }

  lemma IsoReadsBack(d: Date)
    requires Valid(d)
    ensures Shaped(Iso(d)) && FromIso(Iso(d)) == Strptime(Iso(d)) == Some(d) && Iso(d)[8] != ' '
  {
    var s := Iso(d);
    IsoCharacters(d);
    FourDigits(d.year);
    TwoDigits(d.month);
    TwoDigits(d.day);
    DigitsAreDigits(d);
    assert Read(s) == d;
  }

  lemma IsoCharacters(d: Date)
    ensures var s := Iso(d);
      && |s| == 10 && s[4] == '-' && s[7] == '-'
      && s[0] == Digit(d.year / 1000) && s[1] == Digit(d.year / 100)
      && s[2] == Digit(d.year / 10) && s[3] == Digit(d.year)
      && s[5] == Digit(d.month / 10) && s[6] == Digit(d.month) && s[8] == Digit(d.day / 10) && s[9] == Digit(d.day)
  {
  }

  lemma DigitIsDigit(n: int)
    ensures IsDigit(Digit(n)) && Value(Digit(n)) == n % 10
  {
  }

  lemma DigitsAreDigits(d: Date)
    ensures IsDigit(Digit(d.year / 1000)) && IsDigit(Digit(d.year / 100))
    ensures IsDigit(Digit(d.year / 10)) && IsDigit(Digit(d.year))
    ensures IsDigit(Digit(d.month / 10)) && IsDigit(Digit(d.month))
    ensures IsDigit(Digit(d.day / 10)) && IsDigit(Digit(d.day))
    ensures Value(Digit(d.year / 1000)) == d.year / 1000 % 10 && Value(Digit(d.year / 100)) == d.year / 100 % 10
    ensures Value(Digit(d.year / 10)) == d.year / 10 % 10 && Value(Digit(d.year)) == d.year % 10
    ensures Value(Digit(d.month / 10)) == d.month / 10 % 10 && Value(Digit(d.month)) == d.month % 10
    ensures Value(Digit(d.day / 10)) == d.day / 10 % 10 && Value(Digit(d.day)) == d.day % 10
  {
    DigitIsDigit(d.year / 1000);
    DigitIsDigit(d.year / 100);
    DigitIsDigit(d.year / 10);
    DigitIsDigit(d.year);
    DigitIsDigit(d.month / 10);
    DigitIsDigit(d.month);
    DigitIsDigit(d.day / 10);
    DigitIsDigit(d.day);
  }

  lemma TwoDigits(n: int)
    requires 0 <= n <= 99
    ensures n / 10 % 10 * 10 + n % 10 == n
  {
  }

  lemma FourDigits(y: int)
    requires 0 <= y <= 9999
    ensures y / 1000 % 10 * 1000 + y / 100 % 10 * 100 + y / 10 % 10 * 10 + y % 10 == y
  {
    assert y / 100 == y / 10 / 10 && y / 1000 == y / 10 / 10 / 10;
  }

  lemma TwoReadBack(a: char, b: char)
    requires IsDigit(a) && IsDigit(b)
    ensures Two(Value(a) * 10 + Value(b)) == [a, b]
  {
  }

  lemma ReadIsIso(s: string)
    requires Shaped(s) && FromIso(s).Some?
    ensures Iso(FromIso(s).value) == s
  {
    var d := Read(s);
    ReadYear(Value(s[0]), Value(s[1]), Value(s[2]), Value(s[3]));
    TwoReadBack(s[5], s[6]);
    TwoReadBack(s[8], s[9]);
  }

  lemma ReadYear(a: int, b: int, c: int, e: int)
    requires 0 <= a <= 9 && 0 <= b <= 9 && 0 <= c <= 9 && 0 <= e <= 9
    ensures var y := a * 1000 + b * 100 + c * 10 + e;
      y / 1000 % 10 == a && y / 100 % 10 == b && y / 10 % 10 == c && y % 10 == e
  {
    var y := a * 1000 + b * 100 + c * 10 + e;
    assert y / 10 == a * 100 + b * 10 + c;
    assert y / 100 == a * 10 + b && y / 1000 == a;
  }

  /** A text of the right shape is read as this date if and only if it is the date's own text. */
  lemma DateIsReadIff(s: string, d: Date)
    requires Shaped(s)
    ensures FromIso(s) == Some(d) <==> Valid(d) && Iso(d) == s
  {
    if FromIso(s) == Some(d) { ReadIsIso(s); }
    if Valid(d) && Iso(d) == s { IsoReadsBack(d); }
  }

  /** Text in this form is read back exactly when its day is not padded with a space. */
  lemma StrptimeReadsBackIff(s: string)
    requires Shaped(s) && Strptime(s).Some?
    ensures Iso(Strptime(s).value) == s <==> s[8] != ' '
  {
    if s[8] != ' ' { ReadIsIso(s); } else { IsoReadsBack(Strptime(s).value); }
  }
}
