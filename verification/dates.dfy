/** Proleptic Gregorian calendar dates, as Python's datetime.date keeps them:
    the day after a date, the number of days since 1970-01-01, and the
    "%Y-%m-%d" rendering used in digest keys. */
module Dates {
  import opened Text
  import opened Wrappers

  datatype Date = Date(year: int, month: int, day: int)

  /** A wall-clock reading in the machine's local time zone. */
  datatype LocalDateTime = LocalDateTime(date: Date, hour: int, minute: int, second: int)

  predicate IsLeapYear(y: int) {
    y % 4 == 0 && (y % 100 != 0 || y % 400 == 0)
  }

  function DaysInMonth(y: int, m: int): int
    requires 1 <= m <= 12
  {
    if m == 2 then (if IsLeapYear(y) then 29 else 28)
    else if m == 4 || m == 6 || m == 9 || m == 11 then 30
    else 31
  }

  /** The dates datetime accepts: years 1 to 9999. */
  predicate ValidDate(d: Date) {
    1 <= d.year <= 9999 && 1 <= d.month <= 12 && 1 <= d.day <= DaysInMonth(d.year, d.month)
  }

  predicate ValidLocal(t: LocalDateTime) {
    ValidDate(t.date) && 0 <= t.hour < 24 && 0 <= t.minute < 60 && 0 <= t.second < 60
  }

  /** The date one day later; None where datetime would raise OverflowError
      (the day after 9999-12-31). */
  function NextDay(d: Date): (r: Option<Date>)
    requires ValidDate(d)
  {
    if d.day < DaysInMonth(d.year, d.month) then Some(Date(d.year, d.month, d.day + 1))
    else if d.month < 12 then Some(Date(d.year, d.month + 1, 1))
    else if d.year < 9999 then Some(Date(d.year + 1, 1, 1))
    else None
  }

  function DaysBeforeYear(y: int): int {
    var p := y - 1;
    365 * p + p / 4 - p / 100 + p / 400
  }

  function DaysBeforeMonth(y: int, m: int): int
    requires 1 <= m <= 12
  {
    if m == 1 then 0 else DaysBeforeMonth(y, m - 1) + DaysInMonth(y, m - 1)
  }

  /** Days since 1970-01-01 (date.toordinal() - 719163). */
  function DayNumber(d: Date): int
    requires ValidDate(d)
  {
    DaysBeforeYear(d.year) + DaysBeforeMonth(d.year, d.month) + d.day - 719163
  }

  lemma YearLength(y: int)
    requires y >= 1
    ensures DaysBeforeYear(y + 1) - DaysBeforeYear(y) == if IsLeapYear(y) then 366 else 365
  {
    var p := y - 1;
    assert y / 4 - p / 4 == (if y % 4 == 0 then 1 else 0);
    assert y / 100 - p / 100 == (if y % 100 == 0 then 1 else 0);
    assert y / 400 - p / 400 == (if y % 400 == 0 then 1 else 0);
  }

  lemma DecemberEnds(y: int)
    ensures DaysBeforeMonth(y, 12) + 31 == if IsLeapYear(y) then 366 else 365
  {
    var leap := if IsLeapYear(y) then 1 else 0;
    assert DaysBeforeMonth(y, 1) == 0;
    assert DaysBeforeMonth(y, 2) == 31;
    assert DaysBeforeMonth(y, 3) == 59 + leap;
    assert DaysBeforeMonth(y, 4) == 90 + leap;
    assert DaysBeforeMonth(y, 5) == 120 + leap;
    assert DaysBeforeMonth(y, 6) == 151 + leap;
    assert DaysBeforeMonth(y, 7) == 181 + leap;
    assert DaysBeforeMonth(y, 8) == 212 + leap;
    assert DaysBeforeMonth(y, 9) == 243 + leap;
    assert DaysBeforeMonth(y, 10) == 273 + leap;
    assert DaysBeforeMonth(y, 11) == 304 + leap;
    assert DaysBeforeMonth(y, 12) == 334 + leap;
  }

  /** The next day is a valid date exactly one day number later, and only the
      last representable date has no next day. */
  lemma {:induction false} NextDayNumber(d: Date)
    requires ValidDate(d)
    ensures NextDay(d).None? <==> d == Date(9999, 12, 31)
    ensures NextDay(d).Some? ==>
              ValidDate(NextDay(d).value) && DayNumber(NextDay(d).value) == DayNumber(d) + 1
  {
    if d.day == DaysInMonth(d.year, d.month) && d.month == 12 && d.year < 9999 {
      YearLength(d.year);
      DecemberEnds(d.year);
    }
  }

  /** strftime("%Y-%m-%d"): the year unpadded (as glibc prints it), month and
      day padded to two digits. */
  function DateText(d: Date): string
    requires ValidDate(d)
  {
    NatToString(d.year) + "-" + Pad2(d.month) + "-" + Pad2(d.day)
  }

  /** Different dates never share a rendering. */
  lemma DateTextInjective(a: Date, b: Date)
    requires ValidDate(a) && ValidDate(b) && DateText(a) == DateText(b)
    ensures a == b
  {
    var ta, tb := DateText(a), DateText(b);
    var ya, yb := NatToString(a.year), NatToString(b.year);
    assert |ta| == |ya| + 6 && |tb| == |yb| + 6;
    assert ta[|ta| - 2..] == Pad2(a.day) && tb[|tb| - 2..] == Pad2(b.day);
    Pad2Injective(a.day, b.day);
    assert ta[|ta| - 5..|ta| - 3] == Pad2(a.month) && tb[|tb| - 5..|tb| - 3] == Pad2(b.month);
    Pad2Injective(a.month, b.month);
    assert ta[..|ta| - 6] == ya && tb[..|tb| - 6] == yb;
    NatToStringInjective(a.year, b.year);
  }

  /** Weekday names, indexed from the weekday of 1970-01-01 (a Thursday). */
  const WeekdayNames: seq<string> :=
    ["Thursday", "Friday", "Saturday", "Sunday", "Monday", "Tuesday", "Wednesday"]

  const MonthAbbreviations: seq<string> :=
    ["Jan", "Feb", "Mar", "Apr", "May", "Jun", "Jul", "Aug", "Sep", "Oct", "Nov", "Dec"]

  /** Days since the last Thursday: 0 for a Thursday, 6 for a Wednesday. */
  function Weekday(d: Date): (w: nat)
    requires ValidDate(d)
    ensures w < 7
  {
    DayNumber(d) % 7
  }

  /** The weekday advances by one, cyclically, from a date to the next. */
  lemma NextDayWeekday(d: Date)
    requires ValidDate(d) && NextDay(d).Some?
    ensures ValidDate(NextDay(d).value)
    ensures Weekday(NextDay(d).value) == (Weekday(d) + 1) % 7
  {
    NextDayNumber(d);
  }

  /** strftime("%A, %b %-d") in the C locale, e.g. "Thursday, Jan 1". */
  function DayLabel(d: Date): string
    requires ValidDate(d)
  {
    WeekdayNames[Weekday(d)] + ", " + MonthAbbreviations[d.month - 1] + " " + NatToString(d.day)
  }

  function Hour12(h: int): (r: int)
    requires 0 <= h < 24
    ensures 1 <= r <= 12
    ensures r % 12 == h % 12
  {
    if h % 12 == 0 then 12 else h % 12
  }

  /** strftime("%-I:%M %p") in the C locale, e.g. "9:05 AM". */
  function ClockText(t: LocalDateTime): string
    requires ValidLocal(t)
  {
    NatToString(Hour12(t.hour)) + ":" + Pad2(t.minute) + " " + (if t.hour < 12 then "AM" else "PM")
  }

  /** Two readings with a different hour or minute never render alike. */
  lemma ClockTextInjective(a: LocalDateTime, b: LocalDateTime)
    requires ValidLocal(a) && ValidLocal(b) && ClockText(a) == ClockText(b)
    ensures a.hour == b.hour && a.minute == b.minute
  {
    var ta, tb := ClockText(a), ClockText(b);
    var ha, hb := NatToString(Hour12(a.hour)), NatToString(Hour12(b.hour));
    assert |ta| == |ha| + 6 && |tb| == |hb| + 6;
    assert ta[|ta| - 2..] == (if a.hour < 12 then "AM" else "PM");
    assert tb[|tb| - 2..] == (if b.hour < 12 then "AM" else "PM");
    assert (a.hour < 12) == (b.hour < 12);
    assert ta[|ta| - 5..|ta| - 3] == Pad2(a.minute) && tb[|tb| - 5..|tb| - 3] == Pad2(b.minute);
    Pad2Injective(a.minute, b.minute);
    assert ta[..|ta| - 6] == ha && tb[..|tb| - 6] == hb;
    NatToStringInjective(Hour12(a.hour), Hour12(b.hour));
  }

  /** Wall-clock order: by date, then by time of day. */
  predicate DateBefore(a: Date, b: Date) {
    a.year < b.year || (a.year == b.year && (a.month < b.month || (a.month == b.month && a.day < b.day)))
  }

  predicate LocalBefore(a: LocalDateTime, b: LocalDateTime) {
    DateBefore(a.date, b.date) || (a.date == b.date &&
      (a.hour < b.hour || (a.hour == b.hour && (a.minute < b.minute || (a.minute == b.minute && a.second < b.second)))))
  }

  /** The next day is the immediate successor: no valid date lies strictly
      between a date and the next. */
  lemma NextDayIsSuccessor(d: Date, x: Date)
    requires ValidDate(d) && ValidDate(x) && NextDay(d).Some?
    ensures DateBefore(x, NextDay(d).value) <==> DateBefore(x, d) || x == d
  {
  }
}
