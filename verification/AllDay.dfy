/**
 * Event times between the assistant and the calendar (tools/google_calendar.py: _time_field,
 * _fmt_event, create_event, update_event) and in a proposal (orchestrator.py: _describe_when).
 *
 * The assistant's all-day ranges name their last day; the calendar's `end.date` is the day after.
 */
module AllDay {
  import opened Calls
  import opened Gregorian
  import opened WeekDates

  /** The result of date arithmetic: a value, or OverflowError, which no caller here catches. */
  datatype Outcome<+T> = Done(value: T) | Overflow

  /** A start or end object; a missing or empty entry is "". */
  datatype Moment = Moment(dateTime: string, date: string, zone: string)

  datatype Event = Event(start: Moment, end: Moment)

  predicate IsSpace(c: char) {
    || '\U{09}' <= c <= '\U{0D}' || '\U{1C}' <= c <= '\U{20}' || c == '\U{85}' || c == '\U{A0}' || c == '\U{1680}'
    || '\U{2000}' <= c <= '\U{200A}' || c == '\U{2028}' || c == '\U{2029}' || c == '\U{202F}' || c == '\U{205F}'
    || c == '\U{3000}'
  }

  /** The characters that count as white space, one by one. */
  lemma SpacesAre(c: char)
    ensures IsSpace(c) <==> c in [
      '\t', '\n', '\U{0B}', '\U{0C}', '\r', '\U{1C}', '\U{1D}', '\U{1E}', '\U{1F}', ' ', '\U{85}', '\U{A0}', '\U{1680}',
      '\U{2000}', '\U{2001}', '\U{2002}', '\U{2003}', '\U{2004}', '\U{2005}', '\U{2006}', '\U{2007}', '\U{2008}',
      '\U{2009}', '\U{200A}', '\U{2028}', '\U{2029}', '\U{202F}', '\U{205F}', '\U{3000}']
  {
  }

  function Strip(s: string): string
    decreases |s|
  {
    if s == "" then ""
    else if IsSpace(s[0]) then Strip(s[1..])
    else if IsSpace(s[|s| - 1]) then Strip(s[..|s| - 1])
    else s
  }

  /** What a text is stripped to: it stands between `a` and `b`. */
  predicate StripsTo(s: string, a: nat, b: nat, r: string) {
    && a <= b <= |s| && r == s[a..b]
    && (forall i :: 0 <= i < a ==> IsSpace(s[i])) && (forall i :: b <= i < |s| ==> IsSpace(s[i]))
    && (a < b ==> !IsSpace(s[a]) && !IsSpace(s[b - 1]))
  }

  lemma SpaceBefore(s: string, a: nat, b: nat, r: string)
    requires s != "" && IsSpace(s[0]) && StripsTo(s[1..], a, b, r)
    ensures StripsTo(s, a + 1, b + 1, r)
  {
    var rest := s[1..];
    assert forall i :: 0 <= i < |rest| ==> rest[i] == s[i + 1];
    forall i | 0 <= i < a + 1 || b + 1 <= i < |s| ensures IsSpace(s[i]) {
      if i > 0 { assert IsSpace(rest[i - 1]); }
    }
  }

  lemma SpaceAfter(s: string, a: nat, b: nat, r: string)
    requires s != "" && IsSpace(s[|s| - 1]) && StripsTo(s[..|s| - 1], a, b, r)
    ensures StripsTo(s, a, b, r)
  {
    var front := s[..|s| - 1];
    forall i | 0 <= i < a || b <= i < |s| ensures IsSpace(s[i]) {
      if i < |front| { assert IsSpace(front[i]); }
    }
  }

  /** `strip` cuts white space off both ends, and all of it. */
  lemma {:induction false} StripIs(s: string) returns (a: nat, b: nat)
    ensures StripsTo(s, a, b, Strip(s))
    decreases |s|
  {
    if s == "" {
      a, b := 0, 0;
    } else if IsSpace(s[0]) {
      a, b := StripIs(s[1..]);
      SpaceBefore(s, a, b, Strip(s[1..]));
      a, b := a + 1, b + 1;
    } else if IsSpace(s[|s| - 1]) {
      a, b := StripIs(s[..|s| - 1]);
      SpaceAfter(s, a, b, Strip(s[..|s| - 1]));
    } else {
      a, b := 0, |s|;
    }
  }

  lemma {:induction false} StripIsIdempotent(s: string)
    ensures Strip(Strip(s)) == Strip(s)
    decreases |s|
  {
    if s == "" {
    } else if IsSpace(s[0]) {
      StripIsIdempotent(s[1..]);
    } else if IsSpace(s[|s| - 1]) {
      StripIsIdempotent(s[..|s| - 1]);
    }
  }

  function TimeField(value: string, zone: string, isEnd: bool): Outcome<Moment> {
    var v := Strip(value);
    if !Shaped(v) then Done(Moment(v, "", zone))
    else if isEnd && Strptime(v).Some? then
      var d := Strptime(v).value;
      if d == LAST then Overflow else Done(Moment("", Iso(NextDay(d)), ""))
    else Done(Moment("", v, ""))
  }

  function Shown(m: Moment): string {
    if m.dateTime != "" then m.dateTime else if m.date != "" then m.date else "?"
  }

  function ShownEnd(m: Moment): Outcome<string> {
    if m.dateTime == "" && m.date != "" && Shaped(m.date) && Strptime(m.date).Some? then
      var d := Strptime(m.date).value;
      if d == FIRST then Overflow else Done(Iso(PrevDay(d)))
    else Done(Shown(m))
  }

  /** The two times in a listed event. */
  function Listed(e: Event): Outcome<(string, string)> {
    match ShownEnd(e.end)
    case Overflow => Overflow
    case Done(end) => Done((Shown(e.start), end))
  }

  function Created(start: string, end: string, zone: string): Outcome<Event> {
    match TimeField(end, zone, true)
    case Overflow => Overflow
    case Done(m) => Done(Event(TimeField(start, zone, false).value, m))
  }

  /** A patch of the given fields; "" is a field not given. */
  function Updated(e: Event, start: string, end: string, zone: string): Outcome<Event> {
    var s := if start != "" then TimeField(start, zone, false) else Done(e.start);
    var t := if end != "" then TimeField(end, zone, true) else Done(e.end);
    if t == Overflow then Overflow else Done(Event(s.value, t.value))
  }

  // --- what is written is what is read --------------------------------------------------------------

  /** Text that survives as an end: not empty, not the calendar's last day, no space-padded day. */
  predicate Returns(t: string) {
    t != "" && (Shaped(t) && Strptime(t).Some? ==> Strptime(t).value != LAST && t[8] != ' ')
  }

  /** An end is listed as the text it was written from exactly when that text `Returns`. */
  lemma EndReadsBackIff(value: string, zone: string)
    ensures var written := TimeField(value, zone, true);
      (written.Done? && ShownEnd(written.value) == Done(Strip(value))) <==> Returns(Strip(value))
  {
    var v := Strip(value);
    if Shaped(v) && Strptime(v).Some? && Strptime(v).value != LAST {
      var d := Strptime(v).value;
      IsoReadsBack(NextDay(d));
      PrevUndoesNext(d);
      StrptimeReadsBackIff(v);
    }
  }

  /** Dates are never padded or cut by `strip`. */
  lemma IsoIsStripped(d: Date)
    requires Valid(d)
    ensures Strip(Iso(d)) == Iso(d)
  {
    IsoReadsBack(d);
  }

  /** Every all-day range before the calendar's last day is listed as it was created. */
  lemma CreatedRangeReadsBack(s: Date, e: Date, zone: string)
    requires Valid(s) && Valid(e) && e != LAST
    ensures var made := Created(Iso(s), Iso(e), zone);
      made.Done? && Listed(made.value) == Done((Iso(s), Iso(e)))
  {
    IsoIsStripped(s);
    IsoIsStripped(e);
    IsoReadsBack(s);
    IsoReadsBack(e);
    EndReadsBackIff(Iso(e), zone);
  }

  /** What the calendar can hold: stripped times in this zone, and dates whose end is past the first
      day. A date that could not be read is kept as it is. */
  predicate Settled(e: Event, zone: string) {
    && SettledTime(e.start, zone)
    && SettledTime(e.end, zone)
    && (e.end.dateTime == "" && Strptime(e.end.date).Some? ==>
          Strptime(e.end.date).value != FIRST && e.end.date[8] != ' ')
  }

  predicate SettledTime(m: Moment, zone: string) {
    if m.dateTime != "" then m.date == "" && m.zone == zone && Strip(m.dateTime) == m.dateTime && !Shaped(m.dateTime)
    else Shaped(m.date) && m.zone == "" && Strip(m.date) == m.date
  }

  /** Whatever is written, unless the text is blank, is settled. */
  lemma WrittenIsSettled(start: string, end: string, zone: string)
    requires Strip(start) != "" && Strip(end) != "" && Created(start, end, zone).Done?
    ensures Settled(Created(start, end, zone).value, zone)
  {
    StripIsIdempotent(start);
    StripIsIdempotent(end);
    var v := Strip(end);
    if Shaped(v) && Strptime(v).Some? {
      var n := NextDay(Strptime(v).value);
      IsoReadsBack(n);
      IsoIsStripped(n);
    }
  }

  /** Listing an event and writing back what was listed changes nothing. */
  lemma CycleIsIdentity(e: Event, zone: string)
    requires Settled(e, zone)
    ensures Listed(e).Done? && Updated(e, Listed(e).value.0, Listed(e).value.1, zone) == Done(e)
  {
    var m := e.end;
    if m.dateTime == "" && Strptime(m.date).Some? {
      var d := Strptime(m.date).value;
      NextUndoesPrev(d);
      IsoReadsBack(PrevDay(d));
      IsoIsStripped(PrevDay(d));
      StrptimeReadsBackIff(m.date);
    }
  }

  /** `n` cycles of listing an event and writing back both times. */
  function Cycled(e: Event, zone: string, n: nat): Outcome<Event>
    decreases n
  {
    if n == 0 then Done(e)
    else match Listed(e)
      case Overflow => Overflow
      case Done(t) => match Updated(e, t.0, t.1, zone)
        case Overflow => Overflow
        case Done(e') => Cycled(e', zone, n - 1)
  }

  /** Any number of such cycles is a fixpoint: the end never walks. */
  lemma {:induction false} CyclesAreAFixpoint(e: Event, zone: string, n: nat)
    requires Settled(e, zone)
    ensures Cycled(e, zone, n) == Done(e)
  {
    if n > 0 {
      CycleIsIdentity(e, zone);
      CyclesAreAFixpoint(e, zone, n - 1);
    }
  }

  /** After an update, a given time is listed as given and the other as it was. */
  lemma UpdateReadsBack(e: Event, start: string, end: string, zone: string)
    requires Settled(e, zone)
    requires start != "" ==> Strip(start) != ""
    requires end != "" ==> Returns(Strip(end))
    ensures var made := Updated(e, start, end, zone);
      made.Done? && Listed(e).Done? && Listed(made.value) ==
        Done((if start != "" then Strip(start) else Listed(e).value.0,
              if end != "" then Strip(end) else Listed(e).value.1))
  {
    EndReadsBackIff(end, zone);
    CycleIsIdentity(e, zone);
  }

  // --- the day count in a proposal ------------------------------------------------------------------

  /** `date.fromisoformat` on ten characters of which the fifth is a dash: a calendar date or a week date. */
  function OrdinalOf(s: string): Option<int>
    requires |s| == 10 && s[4] == '-'
  {
    if s[7] == '-' then (if FromIso(s).Some? then Some(Ordinal(FromIso(s).value)) else None)
    else if WeekShaped(s) then WeekOrdinal(s)
    else None
  }

  /** The rendered range. */
  datatype When =
    | Unknown
    | Only(start: string)
    | Range(start: string, end: string)
    | EndFirst(start: string, end: string)
    | Days(start: string, end: string, count: int)

  function DescribeWhen(start: string, end: string): When {
    if start == "" || start == "?" then Unknown
    else if end == "" || end == start then Only(start)
    else if |start| == 10 && |end| == 10 && start[4] == '-' && end[4] == '-' then
      var s, e := OrdinalOf(start), OrdinalOf(end);
      if s.None? || e.None? then Range(start, end)
      else if e.value - s.value + 1 < 1 then EndFirst(start, end)
      else Days(start, end, e.value - s.value + 1)
    else Range(start, end)
  }

  /** A calendar date or a week date. */
  predicate ReadsAsDay(s: string) { |s| == 10 && s[4] == '-' && OrdinalOf(s).Some? }

  /** The start alone is shown if and only if there is no other end; else both are shown as given, and it is
      unknown exactly when there is no start. A count or a warning is added to both if and only if they are
      days, by their order. */
  lemma BothEndsAreShown(start: string, end: string)
    ensures DescribeWhen(start, end).Unknown? <==> start == "" || start == "?"
    ensures !DescribeWhen(start, end).Unknown? ==> DescribeWhen(start, end).start == start
    ensures DescribeWhen(start, end).Only? <==> start != "" && start != "?" && (end == "" || end == start)
    ensures var w := DescribeWhen(start, end); w.Range? || w.EndFirst? || w.Days? ==> w.end == end
    ensures var w := DescribeWhen(start, end);
      && (w.Days? || w.EndFirst? <==> start != end && ReadsAsDay(start) && ReadsAsDay(end))
      && (w.Days? ==> w.count == OrdinalOf(end).value - OrdinalOf(start).value + 1 && w.count >= 1)
      && (w.EndFirst? ==> OrdinalOf(end).value < OrdinalOf(start).value)
  {
  }

  lemma DateIsStripped(s: string)
    requires Shaped(s) && FromIso(s).Some?
    ensures Strip(s) == s && Strptime(s) == FromIso(s)
  {
  }

  /** The event runs from `first` to the day `count` days later, that day excluded. */
  predicate SendsRange(e: Event, first: Date, count: nat)
    requires Valid(first)
  {
    e.start == Moment("", Iso(first), "")
    && Plus(first, count).Some? && e.end == Moment("", Iso(Plus(first, count).value), "")
  }

  /** Some day is the first of `count` days that the event covers. */
  ghost predicate CoversDays(e: Event, count: nat) { exists first :: Valid(first) && SendsRange(e, first, count) }

  /** A calendar date is sent as a date: itself as a start, the next day as an end. */
  lemma DateIsSent(s: string, zone: string)
    requires Shaped(s) && FromIso(s).Some?
    ensures TimeField(s, zone, false) == Done(Moment("", s, ""))
    ensures TimeField(s, zone, true) ==
      if FromIso(s).value == LAST then Overflow else Done(Moment("", Iso(NextDay(FromIso(s).value)), ""))
  {
    DateIsStripped(s);
  }

  lemma CountedDatesAreInOrder(start: string, end: string)
    requires Shaped(start) && Shaped(end) && DescribeWhen(start, end).Days?
    ensures FromIso(start).Some? && FromIso(end).Some?
    ensures var first, last := FromIso(start).value, FromIso(end).value;
      Ordinal(first) <= Ordinal(last) && DescribeWhen(start, end).count == Ordinal(last) - Ordinal(first) + 1
  {
  }

  lemma PairIsCreated(start: string, end: string, zone: string, s: Moment, e: Outcome<Moment>)
    requires TimeField(start, zone, false) == Done(s) && TimeField(end, zone, true) == e
    ensures Created(start, end, zone) == if e.Done? then Done(Event(s, e.value)) else Overflow
  {
  }

  lemma RangeIsSent(start: string, end: string, zone: string, first: Date, last: Date, count: nat)
    requires Shaped(start) && Shaped(end) && FromIso(start) == Some(first) && FromIso(end) == Some(last)
    requires Ordinal(first) <= Ordinal(last) && count == Ordinal(last) - Ordinal(first) + 1
    ensures var made := Created(start, end, zone);
      (made == Overflow <==> last == LAST) && (made.Done? ==> SendsRange(made.value, first, count))
  {
    DateIsSent(start, zone);
    DateIsSent(end, zone);
    PairIsCreated(start, end, zone, Moment("", start, ""), TimeField(end, zone, true));
    if last != LAST { DatesMakeARange(start, first, last, count); }
  }

  lemma DatesMakeARange(start: string, first: Date, last: Date, count: nat)
    requires Shaped(start) && FromIso(start) == Some(first) && Valid(last) && last != LAST
    requires Ordinal(first) <= Ordinal(last) && count == Ordinal(last) - Ordinal(first) + 1
    ensures SendsRange(Event(Moment("", start, ""), Moment("", Iso(NextDay(last)), "")), first, count)
  {
    ReadIsIso(start);
    DaysReachTheEnd(first, last);
  }

  lemma DatesSendTheirRange(start: string, end: string, zone: string)
    requires Shaped(start) && Shaped(end) && DescribeWhen(start, end).Days?
    ensures FromIso(start).Some? && FromIso(end).Some?
    ensures var made := Created(start, end, zone); var first := FromIso(start).value;
      && (made == Overflow <==> FromIso(end).value == LAST)
      && (made.Done? ==> SendsRange(made.value, first, DescribeWhen(start, end).count))
  {
    CountedDatesAreInOrder(start, end);
    RangeIsSent(start, end, zone, FromIso(start).value, FromIso(end).value, DescribeWhen(start, end).count);
  }

  lemma DaysReachTheEnd(s: Date, e: Date)
    requires Valid(s) && Valid(e) && e != LAST && Ordinal(s) <= Ordinal(e)
    ensures Plus(s, Ordinal(e) - Ordinal(s) + 1) == Some(NextDay(e))
  {
    NextDayAddsOne(e);
    PlusReaches(s, NextDay(e));
  }

  lemma {:induction false} StripShortens(s: string)
    ensures |Strip(s)| <= |s| && (|Strip(s)| == |s| ==> Strip(s) == s)
    decreases |s|
  {
    if s != "" {
      if IsSpace(s[0]) { StripShortens(s[1..]); } else if IsSpace(s[|s| - 1]) { StripShortens(s[..|s| - 1]); }
    }
  }

  /** A week date is sent as a time, so no days are. */
  lemma OtherTextSendsNoRange(start: string, end: string, zone: string, count: nat)
    requires |start| == |end| == 10 && !(Shaped(start) && Shaped(end)) && Created(start, end, zone).Done?
    ensures !CoversDays(Created(start, end, zone).value, count)
  {
    StripShortens(start);
    StripShortens(end);
    var e := Created(start, end, zone).value;
    assert e.start.date == "" || e.end.date == "";
  }

  /** The count a user approves is the length of the range that is sent - `count` days after the start
      date comes the exclusive end, across months, years and leap days - if and only if both texts are
      calendar dates, and the last day of the calendar is not among them. A count is also shown for week
      dates, which are sent as times. */
  lemma CountIsTheRangeSentIff(start: string, end: string, zone: string)
    requires DescribeWhen(start, end).Days?
    ensures var made := Created(start, end, zone);
      (made.Done? && CoversDays(made.value, DescribeWhen(start, end).count)) <==>
      Shaped(start) && Shaped(end) && FromIso(end) != Some(LAST)
  {
    if Shaped(start) && Shaped(end) {
      DatesSendTheirRange(start, end, zone);
    } else if Created(start, end, zone).Done? {
      OtherTextSendsNoRange(start, end, zone, DescribeWhen(start, end).count);
    }
  }

  lemma WeekDateIsStripped(s: string)
    requires WeekShaped(s) && WeekOrdinal(s).Some?
    ensures Strip(s) == s && !Shaped(s)
  {
    assert IsDigit(s[0]) && IsDigit(s[7]) && IsDigit(s[9]);
  }

  /** Any two week dates in order are shown with a count of days, and sent as two times. */
  lemma WeekDatesAreSentAsTimes(start: string, end: string, zone: string)
    requires WeekShaped(start) && WeekShaped(end) && start != end
    requires WeekOrdinal(start).Some? && WeekOrdinal(end).Some? && WeekOrdinal(start).value <= WeekOrdinal(end).value
    ensures DescribeWhen(start, end) == Days(start, end, WeekOrdinal(end).value - WeekOrdinal(start).value + 1)
    ensures Created(start, end, zone) == Done(Event(Moment(start, "", zone), Moment(end, "", zone)))
  {
    WeekDateIsStripped(start);
    WeekDateIsStripped(end);
  }

  /** Monday to Friday of a week: five days are shown for approval, and two unreadable times are sent. */
  lemma WeekIsShownAsFiveDays(zone: string)
    ensures var start, end := "2026-W32-1", "2026-W32-5";
      && DescribeWhen(start, end) == Days(start, end, 5)
      && Created(start, end, zone) == Done(Event(Moment(start, "", zone), Moment(end, "", zone)))
  {
    var start, end := "2026-W32-1", "2026-W32-5";
    August2026();
    assert start[9] != end[9];
    WeekDatesAreSentAsTimes(start, end, zone);
  }

  lemma PaddedDayIsRead()
    ensures var t := "2026-08- 5"; Shaped(t) && Strip(t) == t && Strptime(t) == Some(Date(2026, 8, 5))
  {
    var t := "2026-08- 5";
    assert !IsSpace(t[0]) && !IsSpace(t[9]) && Strip(t) == t;
  }

  /** A day padded with a space is sent, and comes back as another text. */
  lemma PaddedDayIsRewritten(zone: string)
    ensures var t := "2026-08- 5"; var written := TimeField(t, zone, true);
      && written == Done(Moment("", Iso(Date(2026, 8, 6)), ""))
      && ShownEnd(written.value) == Done(Iso(Date(2026, 8, 5))) && Iso(Date(2026, 8, 5)) != t
  {
    PaddedDayIsRead();
    IsoReadsBack(Date(2026, 8, 5));
    IsoReadsBack(Date(2026, 8, 6));
  }

  /** The warning appears exactly when the end date comes before the start date. */
  lemma WarnsIff(s: Date, e: Date)
    requires Valid(s) && Valid(e)
    ensures DescribeWhen(Iso(s), Iso(e)).EndFirst? <==> Before(e, s)
    ensures DescribeWhen(Iso(s), Iso(e)).Days? <==> Before(s, e)
  {
    IsoReadsBack(s);
    IsoReadsBack(e);
    OrdinalsOrder(s, e);
    OrdinalsOrder(e, s);
  }
}
