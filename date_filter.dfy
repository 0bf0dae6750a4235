/**
 * The date post-filter of `getEvents`: the provider may return events outside the requested
 * range, so an event is kept only when it has a local date that lies within the bounds that
 * were given, compared on calendar days.
 */
module DateFilter {
  import opened Wrappers
  import opened Seqs
  import opened Text
  import opened TicketmasterData

  /** A calendar day. */
  datatype Date = Date(year: nat, month: nat, day: nat)

  /**
   * The fields a `YYYY-MM-DD` string can carry for the V8 date parser: any month, and any day
   * from 1 to 31 whatever the month.
   */
  predicate ValidDate(d: Date) {
    d.year <= 9999 && 1 <= d.month <= 12 && 1 <= d.day <= 31
  }

  /** A leap year of the proleptic Gregorian calendar. */
  predicate IsLeapYear(year: nat) {
    year % 4 == 0 && (year % 100 != 0 || year % 400 == 0)
  }

  /** The number of days of a month. */
  function DaysInMonth(year: nat, month: nat): (n: nat)
    requires 1 <= month <= 12
    ensures 28 <= n <= 31
    ensures n == 29 <==> month == 2 && IsLeapYear(year)
  {
    if month == 2 then (if IsLeapYear(year) then 29 else 28)
    else if month == 4 || month == 6 || month == 9 || month == 11 then 30
    else 31
  }

  /** A day that exists in the calendar. */
  predicate RealDate(d: Date) {
    ValidDate(d) && d.day <= DaysInMonth(d.year, d.month)
  }

  /**
   * The calendar day the parsed fields stand for: a day past the end of its month rolls over
   * into the next month, as the date arithmetic behind `new Date` does ("2024-02-30" is
   * March 1).
   */
  function Day(d: Date): (r: Date)
    requires ValidDate(d)
    ensures RealDate(r)
    ensures RealDate(d) ==> r == d
  {
    var n := DaysInMonth(d.year, d.month);
    if d.day <= n then d else Date(d.year, d.month + 1, d.day - n)
  }

  /**
   * A day past the end of its month comes after every day of that month, and falls in the
   * first three days of the next one.
   */
  lemma RollOverIsNextMonth(d: Date, e: Date)
    requires ValidDate(d) && !RealDate(d) && RealDate(e) && e.year == d.year && e.month == d.month
    ensures NotAfter(e, Day(d)) && e != Day(d)
    ensures Day(d).year == d.year && Day(d).month == d.month + 1 && Day(d).day <= 3
  {
  }

  /** Calendar order: `a` is the same day as `b` or an earlier one. */
  predicate NotAfter(a: Date, b: Date) {
    a.year < b.year || (a.year == b.year && (a.month < b.month || (a.month == b.month && a.day <= b.day)))
  }

  /** The value of a decimal digit. */
  function DigitValue(c: char): nat
    requires IsDigit(c)
  {
    c as int - '0' as int
  }

  /** The characters of a `YYYY-MM-DD` string that must be digits. */
  predicate DigitPosition(i: int) {
    0 <= i < 10 && i != 4 && i != 7
  }

  /** `s` has the shape `DDDD-DD-DD`. */
  predicate FullDateShape(s: string) {
    |s| == 10 && s[4] == '-' && s[7] == '-' && forall i | 0 <= i < 10 && DigitPosition(i) :: IsDigit(s[i])
  }

  /**
   * What the date parser reads from a full date as section 5.6 of RFC 3339 writes it: the
   * year, month and day fields (a day up to 31 in any month), or `None` for text that is not
   * one (an invalid date, whose comparisons are all false).
   */
  function ParseDate(s: string): (r: Option<Date>)
    ensures r.Some? ==> ValidDate(r.value) && FullDateShape(s)
  {
    if FullDateShape(s) then
      var d := Date(
        1000 * DigitValue(s[0]) + 100 * DigitValue(s[1]) + 10 * DigitValue(s[2]) + DigitValue(s[3]),
        10 * DigitValue(s[5]) + DigitValue(s[6]),
        10 * DigitValue(s[8]) + DigitValue(s[9]));
      if ValidDate(d) then Some(d) else None
    else None
  }

  /** The day written as `YYYY-MM-DD`. */
  function FormatDate(d: Date): (s: string)
    requires ValidDate(d)
    ensures FullDateShape(s)
  {
    [DigitChar(d.year / 10 / 10 / 10), DigitChar(d.year / 10 / 10 % 10), DigitChar(d.year / 10 % 10), DigitChar(d.year % 10),
     '-', DigitChar(d.month / 10), DigitChar(d.month % 10),
     '-', DigitChar(d.day / 10), DigitChar(d.day % 10)]
  }

  /** Reading a written day gives the day back. */
  lemma ParseFormat(d: Date)
    requires ValidDate(d)
    ensures ParseDate(FormatDate(d)) == Some(d)
  {
    var s := FormatDate(d);
    var y1 := d.year / 10;
    var y2 := y1 / 10;
    assert d.year == 10 * y1 + d.year % 10;
    assert y1 == 10 * y2 + y1 % 10;
    assert y2 == 10 * (y2 / 10) + y2 % 10 && y2 / 10 < 10;
    assert DigitValue(s[0]) == y2 / 10;
    assert DigitValue(s[1]) == y2 % 10;
    assert DigitValue(s[2]) == y1 % 10;
    assert DigitValue(s[3]) == d.year % 10;
    assert DigitValue(s[5]) == d.month / 10 && DigitValue(s[6]) == d.month % 10;
    assert DigitValue(s[8]) == d.day / 10 && DigitValue(s[9]) == d.day % 10;
  }

  /** Writing a parsed day gives the text back: the accepted strings and the days match one to one. */
  lemma FormatParse(s: string)
    requires ParseDate(s).Some?
    ensures FormatDate(ParseDate(s).value) == s
  {
    var d := ParseDate(s).value;
    var t := FormatDate(d);
    assert IsDigit(s[0]) && IsDigit(s[1]) && IsDigit(s[2]) && IsDigit(s[3]);
    assert IsDigit(s[5]) && IsDigit(s[6]) && IsDigit(s[8]) && IsDigit(s[9]);
    var a, b, c, e := DigitValue(s[0]), DigitValue(s[1]), DigitValue(s[2]), DigitValue(s[3]);
    assert d.year == 1000 * a + 100 * b + 10 * c + e;
    assert d.year / 10 == 100 * a + 10 * b + c && d.year % 10 == e;
    assert d.year / 10 / 10 == 10 * a + b && d.year / 10 % 10 == c;
    assert d.year / 10 / 10 / 10 == a && d.year / 10 / 10 % 10 == b;
    assert t[0] == s[0] && t[1] == s[1] && t[2] == s[2] && t[3] == s[3];
    assert t[5] == s[5] && t[6] == s[6] && t[8] == s[8] && t[9] == s[9];
  }

  /** `new Date(s)` at midnight: the calendar day a `YYYY-MM-DD` text stands for, or `None`. */
  function DayOf(s: string): (r: Option<Date>)
    ensures r.Some? <==> ParseDate(s).Some?
    ensures r.Some? ==> RealDate(r.value)
    ensures r.Some? && RealDate(ParseDate(s).value) ==> r.value == ParseDate(s).value
  {
    match ParseDate(s)
    case Some(d) => Some(Day(d))
    case None => None
  }

  /** A bound of the search as the filter sees it. */
  datatype Bound = Absent | Unparsable | At(date: Date)

  /** `s ? new Date(s.split('T')[0]) : null`: the day of a date-time bound, time of day dropped. */
  function BoundOf(s: string): (b: Bound)
    ensures s == "" <==> b.Absent?
    ensures b.At? ==> RealDate(b.date)
  {
    if s == "" then Absent
    else match DayOf(Before(s, "T"))
      case Some(d) => At(d)
      case None => Unparsable
  }

  /** A bound given as a day, with or without a time of day after `T`, is that day. */
  lemma BoundIgnoresTime(d: Date, time: string)
    requires ValidDate(d)
    ensures BoundOf(FormatDate(d)) == At(Day(d))
    ensures BoundOf(FormatDate(d) + "T" + time) == At(Day(d))
  {
    var s := FormatDate(d);
    ParseFormat(d);
    assert 'T' !in s by {
      forall i | 0 <= i < |s| ensures s[i] != 'T' {
        if DigitPosition(i) {
          assert IsDigit(s[i]);
        }
      }
    }
    assert !Contains(s, "T") by {
      forall j | 0 <= j <= |s| ensures !OccursAt(s, "T", j) {
        if j < |s| {
          assert s[j] != 'T';
        }
      }
    }
    BeforeConcat(s, "T", time);
  }

  /** The event's day is on or after a given bound. */
  predicate OnOrAfter(event: Option<Date>, b: Bound) {
    event.Some? && b.At? && NotAfter(b.date, event.value)
  }

  /** The event's day is on or before a given bound. */
  predicate OnOrBefore(event: Option<Date>, b: Bound) {
    event.Some? && b.At? && NotAfter(event.value, b.date)
  }

  /** A day lies within whichever of the bounds are days. */
  predicate Within(d: Date, lo: Bound, hi: Bound) {
    (lo.At? ==> NotAfter(lo.date, d)) && (hi.At? ==> NotAfter(d, hi.date))
  }

  /**
   * The filter's test for one event with local date `localDate` and the bound strings
   * `startDate` and `endDate`, branch by branch as the source takes them.
   */
  function KeepEvent(localDate: Option<string>, startDate: string, endDate: string): (keep: bool)
    ensures keep <==> (Truthy(localDate) &&
      ((startDate == "" && endDate == "") ||
       (DayOf(localDate.value).Some? && !BoundOf(startDate).Unparsable? && !BoundOf(endDate).Unparsable?
        && Within(DayOf(localDate.value).value, BoundOf(startDate), BoundOf(endDate)))))
  {
    if !Truthy(localDate) then false
    else
      var day := DayOf(localDate.value);
      var lo := BoundOf(startDate);
      var hi := BoundOf(endDate);
      if lo.Absent? && hi.Absent? then true
      else if !lo.Absent? && hi.Absent? then OnOrAfter(day, lo)
      else if lo.Absent? && !hi.Absent? then OnOrBefore(day, hi)
      else OnOrAfter(day, lo) && OnOrBefore(day, hi)
  }

  /**
   * `events.filter(...)` with the test above: an event survives exactly when it has a local
   * date and, unless no bound was given, that date is a day within every bound; events
   * without a local date are always dropped.
   */
  function FilterByDate(events: seq<RawEvent>, startDate: string, endDate: string): (r: seq<RawEvent>)
    ensures forall e :: e in r <==>
      (e in events && Truthy(e.localDate) &&
       ((startDate == "" && endDate == "") ||
        (DayOf(e.localDate.value).Some? && !BoundOf(startDate).Unparsable? && !BoundOf(endDate).Unparsable?
         && Within(DayOf(e.localDate.value).value, BoundOf(startDate), BoundOf(endDate)))))
  {
    Filter(events, (e: RawEvent) => KeepEvent(e.localDate, startDate, endDate))
  }

  /** Filtering twice with the same bounds equals filtering once. */
  lemma FilterByDateIdempotent(events: seq<RawEvent>, startDate: string, endDate: string)
    ensures FilterByDate(FilterByDate(events, startDate, endDate), startDate, endDate)
      == FilterByDate(events, startDate, endDate)
  {
    FilterIdempotent(events, (e: RawEvent) => KeepEvent(e.localDate, startDate, endDate));
  }

  /** A bound that is given but is not a day (an invalid date) lets no event through. */
  lemma UnparsableBoundDropsAll(events: seq<RawEvent>, startDate: string, endDate: string)
    requires BoundOf(startDate).Unparsable? || BoundOf(endDate).Unparsable?
    ensures FilterByDate(events, startDate, endDate) == []
  {
    FilterNone(events, (e: RawEvent) => KeepEvent(e.localDate, startDate, endDate));
  }

  lemma DayOfFeb31()
    ensures DayOf("2024-02-31") == Some(Date(2024, 3, 2))
  {
    assert FullDateShape("2024-02-31");
  }

  lemma DayOfMar1()
    ensures DayOf("2024-03-01") == Some(Date(2024, 3, 1))
  {
    assert FullDateShape("2024-03-01");
  }

  /**
   * A start bound of "2024-02-31" is March 2, so an event on March 1 is dropped, although it
   * comes after the last day of February.
   */
  lemma RolledBoundDropsEarlierDay()
    ensures !KeepEvent(Some("2024-03-01"), "2024-02-31", "")
  {
    DayOfFeb31();
    DayOfMar1();
    assert Before("2024-02-31", "T") == "2024-02-31";
  }
}
