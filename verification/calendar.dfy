/** The per-event filtering and normalisation of the calendar client: the
    events a calendar query returned, already parsed, become Meeting records
    (for the reminder engine) or DigestEntry records (for a daily digest).

    An event's "start" and "end" objects hold either a "date" (all-day
    events) or a "dateTime"; a parsed dateTime is kept as its instant and its
    wall-clock reading in the event's own UTC offset. A key the code indexes
    with `[...]` that is missing, or a date fromisoformat would reject, makes
    the whole fetch fail: the functions here return Err then. */
module Calendar {
  import opened Wrappers
  import opened Models
  import opened Dates
  import opened Seqs

  const SecondsPerDay := 86400

  datatype Attendee = Attendee(isSelf: bool, responseStatus: Option<string>)

  /** A parsed "dateTime": the instant and its wall-clock reading. */
  datatype Stamp = Stamp(instant: int, wall: LocalDateTime)

  /** A "start" or "end" object; an absent object has neither field. */
  datatype TimeField = TimeField(date: Option<Date>, dateTime: Option<Stamp>)

  datatype RawEvent = RawEvent(
    id: string,
    status: Option<string>,
    summary: Option<string>,
    htmlLink: Option<string>,
    start: TimeField,
    end: TimeField,
    attendees: seq<Attendee>)

  /** The filtering switches of the settings. */
  datatype Filters = Filters(isSkipAllDayEvents: bool, isSkipDeclinedEvents: bool)

  /** The two queries the client issues. */
  datatype Query =
    | Upcoming(timeMin: int, timeMax: int)
    | ForDay(dayStart: LocalDateTime, dayEnd: LocalDateTime)

  /** The calendar API: the events a user's calendar returns for a query, or
      the error the request raised. */
  type Fetcher = (UserConfig, Query) -> Result<seq<RawEvent>>

  predicate IsAllDay(e: RawEvent) {
    e.start.date.Some? && e.start.dateTime.None?
  }

  predicate IsCancelled(e: RawEvent) {
    e.status == Some("cancelled")
  }

  /** Some attendee that is the calendar owner has declined. */
  predicate IsDeclined(e: RawEvent) {
    exists i | 0 <= i < |e.attendees| :: DeclinedBySelf(e.attendees[i])
  }

  predicate DeclinedBySelf(a: Attendee) {
    a.isSelf && a.responseStatus == Some("declined")
  }

  /** The event survives the three skips, in the order the code applies them. */
  predicate Kept(e: RawEvent, f: Filters) {
    !(IsAllDay(e) && f.isSkipAllDayEvents) && !IsCancelled(e) && !(IsDeclined(e) && f.isSkipDeclinedEvents)
  }

  function KeptFilter(f: Filters): RawEvent -> bool {
    e => Kept(e, f)
  }

  function SummaryOf(e: RawEvent): string {
    match e.summary
    case Some(s) => s
    case None => "(No title)"
  }

  /** Midnight UTC of a date, as an instant. */
  function MidnightUtc(d: Date): int
    requires ValidDate(d)
  {
    DayNumber(d) * SecondsPerDay
  }

  /** Start or end instant of an event: midnight UTC of the "date" for an
      all-day event, the "dateTime" otherwise; Err where the code raises. */
  function InstantOf(field: TimeField, isAllDay: bool): Result<int> {
    if isAllDay then
      match field.date
      case Some(d) => if ValidDate(d) then Ok(MidnightUtc(d)) else Err("invalid isoformat date")
      case None => Err("KeyError: 'date'")
    else
      match field.dateTime
      case Some(st) => if ValidLocal(st.wall) then Ok(st.instant) else Err("invalid isoformat datetime")
      case None => Err("KeyError: 'dateTime'")
  }

  /** The Meeting built for a kept event. */
  function ToMeeting(e: RawEvent): Result<Meeting> {
    var allDay := IsAllDay(e);
    match InstantOf(e.start, allDay)
    case Err(msg) => Err(msg)
    case Ok(startTime) =>
      match InstantOf(e.end, allDay)
      case Err(msg) => Err(msg)
      case Ok(endTime) =>
        Ok(Meeting(e.id, SummaryOf(e), startTime, endTime, allDay, IsDeclined(e), false,
                   match e.htmlLink case Some(l) => l case None => ""))
  }

  /** The loop both fetches run over the first events: skip what the
      filters drop, convert the rest, and stop at the first conversion that
      raises. The records built so far, or that error. */
  function Collect<T>(events: seq<RawEvent>, f: Filters, convert: RawEvent -> Result<T>): Result<seq<T>>
    decreases |events|
  {
    if events == [] then Ok([])
    else
      var e := events[|events| - 1];
      match Collect(events[..|events| - 1], f, convert)
      case Err(msg) => Err(msg)
      case Ok(rs) =>
        if !Kept(e, f) then Ok(rs)
        else
          match convert(e)
          case Err(msg) => Err(msg)
          case Ok(r) => Ok(rs + [r])
  }

  /** The loop of get_upcoming_meetings. */
  function UpcomingOf(events: seq<RawEvent>, f: Filters): Result<seq<Meeting>> {
    Collect(events, f, ToMeeting)
  }

  /** The record of a kept event in a digest. */
  function ToDigestEntry(e: RawEvent): Result<DigestEntry> {
    if IsAllDay(e) then Ok(DigestEntry(SummaryOf(e), "All day", ""))
    else
      match e.start.dateTime
      case None => Err("KeyError: 'dateTime'")
      case Some(s) =>
        if !ValidLocal(s.wall) then Err("invalid isoformat datetime")
        else
          match e.end.dateTime
          case None => Err("KeyError: 'dateTime'")
          case Some(t) =>
            if !ValidLocal(t.wall) then Err("invalid isoformat datetime")
            else Ok(DigestEntry(SummaryOf(e), ClockText(s.wall), ClockText(t.wall)))
  }

  /** The loop of get_meetings_for_date. */
  function DigestOf(events: seq<RawEvent>, f: Filters): Result<seq<DigestEntry>> {
    Collect(events, f, ToDigestEntry)
  }

  // ---------------------------------------------------------------------
  // Properties of the filter and of the records

  /** A cancelled event is never kept; an all-day one is dropped exactly when
      all-day events are skipped; a declined one exactly when declined events
      are skipped. */
  lemma KeptRules(e: RawEvent, f: Filters)
    ensures IsCancelled(e) ==> !Kept(e, f)
    ensures !IsCancelled(e) && !IsDeclined(e) ==> (Kept(e, f) <==> !(IsAllDay(e) && f.isSkipAllDayEvents))
    ensures !IsCancelled(e) && !IsAllDay(e) ==> (Kept(e, f) <==> !(IsDeclined(e) && f.isSkipDeclinedEvents))
  {
  }

  /** The record of an event: its id, the summary or "(No title)", the all-day
      and declined flags of the event, never cancelled; an all-day event runs
      from midnight UTC of its start date to midnight UTC of its end date. */
  lemma ToMeetingSpec(e: RawEvent)
    ensures ToMeeting(e).Ok? ==>
      var m := ToMeeting(e).value;
      && m.eventId == e.id
      && m.summary == (if e.summary.Some? then e.summary.value else "(No title)")
      && m.isAllDay == IsAllDay(e) && m.isDeclined == IsDeclined(e) && !m.isCancelled
      && m.htmlLink == (if e.htmlLink.Some? then e.htmlLink.value else "")
      && (IsAllDay(e) ==>
            && e.end.date.Some? && ValidDate(e.start.date.value) && ValidDate(e.end.date.value)
            && m.startTime == DayNumber(e.start.date.value) * 86400
            && m.endTime == DayNumber(e.end.date.value) * 86400)
      && (!IsAllDay(e) ==>
            && e.start.dateTime.Some? && e.end.dateTime.Some?
            && ValidLocal(e.start.dateTime.value.wall) && ValidLocal(e.end.dateTime.value.wall)
            && m.startTime == e.start.dateTime.value.instant
            && m.endTime == e.end.dateTime.value.instant)
    ensures ToMeeting(e).Err? <==>
      if IsAllDay(e) then e.end.date.None? || !ValidDate(e.start.date.value) || !ValidDate(e.end.date.value)
      else
        || e.start.dateTime.None? || !ValidLocal(e.start.dateTime.value.wall)
        || e.end.dateTime.None? || !ValidLocal(e.end.dateTime.value.wall)
  {
  }

  /** An all-day event's digest record reads "All day" with an empty end;
      any other event's reads its start and end clock times. */
  lemma ToDigestEntrySpec(e: RawEvent)
    ensures ToDigestEntry(e).Ok? ==>
      var d := ToDigestEntry(e).value;
      && d.summary == (if e.summary.Some? then e.summary.value else "(No title)")
      && (IsAllDay(e) ==> d.startTime == "All day" && d.endTime == "")
      && (!IsAllDay(e) ==>
            && e.start.dateTime.Some? && e.end.dateTime.Some?
            && ValidLocal(e.start.dateTime.value.wall) && ValidLocal(e.end.dateTime.value.wall)
            && d.startTime == ClockText(e.start.dateTime.value.wall)
            && d.endTime == ClockText(e.end.dateTime.value.wall))
    ensures IsAllDay(e) ==> ToDigestEntry(e).Ok?
  {
  }

  /** Both loops parse a timed event's "dateTime" texts the same way, so an
      event that is not all-day breaks one exactly when it breaks the other,
      with the same error; an all-day event can break only the reminder loop. */
  lemma ConversionsAgree(e: RawEvent)
    ensures !IsAllDay(e) ==> (ToMeeting(e).Err? <==> ToDigestEntry(e).Err?)
    ensures !IsAllDay(e) && ToMeeting(e).Err? ==> ToMeeting(e).error == ToDigestEntry(e).error
    ensures IsAllDay(e) ==> ToDigestEntry(e).Ok?
  {
    ToMeetingSpec(e);
  }

  /** Once the loop has failed it stays failed. */
  lemma {:induction false} CollectErrSticks<T>(events: seq<RawEvent>, more: seq<RawEvent>, f: Filters,
                                               convert: RawEvent -> Result<T>)
    requires Collect(events, f, convert).Err?
    ensures Collect(events + more, f, convert) == Collect(events, f, convert)
    decreases |more|
  {
    if more != [] {
      var init := more[..|more| - 1];
      assert (events + more)[..|events + more| - 1] == events + init;
      CollectErrSticks(events, init, f, convert);
    } else {
      assert events + more == events;
    }
  }

  /** The loop succeeds exactly when every kept event converts, and then
      returns one record per kept event, in the input order. */
  lemma CollectSpec<T>(events: seq<RawEvent>, f: Filters, convert: RawEvent -> Result<T>)
    ensures var r, kept := Collect(events, f, convert), Filter(events, KeptFilter(f));
      && (r.Ok? <==> forall i | 0 <= i < |kept| :: convert(kept[i]).Ok?)
      && (r.Ok? ==> |r.value| == |kept| && forall i | 0 <= i < |kept| :: convert(kept[i]) == Ok(r.value[i]))
  {
    CollectSucceeds(events, f, convert);
    CollectRecords(events, f, convert);
  }

  lemma {:induction false} CollectSucceeds<T>(events: seq<RawEvent>, f: Filters, convert: RawEvent -> Result<T>)
    ensures var kept := Filter(events, KeptFilter(f));
      Collect(events, f, convert).Ok? <==> forall i | 0 <= i < |kept| :: convert(kept[i]).Ok?
    decreases |events|
  {
    if events != [] {
      var init, e := events[..|events| - 1], events[|events| - 1];
      CollectSucceeds(init, f, convert);
      assert events == init + [e];
      FilterAppend(init, e, KeptFilter(f));
      var kept0, kept := Filter(init, KeptFilter(f)), Filter(events, KeptFilter(f));
      assert forall i | 0 <= i < |kept0| :: kept[i] == kept0[i];
      if Collect(init, f, convert).Err? {
        var i :| 0 <= i < |kept0| && convert(kept0[i]).Err?;
        assert convert(kept[i]).Err?;
      } else if Kept(e, f) && convert(e).Err? {
        assert convert(kept[|kept0|]).Err?;
      }
    }
  }

  lemma {:induction false} CollectRecords<T>(events: seq<RawEvent>, f: Filters, convert: RawEvent -> Result<T>)
    ensures var r, kept := Collect(events, f, convert), Filter(events, KeptFilter(f));
      r.Ok? ==> |r.value| == |kept| && forall i | 0 <= i < |kept| :: convert(kept[i]) == Ok(r.value[i])
    decreases |events|
  {
    if events != [] {
      var init, e := events[..|events| - 1], events[|events| - 1];
      CollectRecords(init, f, convert);
      assert events == init + [e];
      FilterAppend(init, e, KeptFilter(f));
    }
  }

  /** get_upcoming_meetings succeeds exactly when every kept event converts,
      and then returns one record per kept event, in the input order. */
  lemma UpcomingSpec(events: seq<RawEvent>, f: Filters)
    ensures var r, kept := UpcomingOf(events, f), Filter(events, KeptFilter(f));
      && (r.Ok? <==> forall i | 0 <= i < |kept| :: ToMeeting(kept[i]).Ok?)
      && (r.Ok? ==> |r.value| == |kept| && forall i | 0 <= i < |kept| :: ToMeeting(kept[i]) == Ok(r.value[i]))
  {
    CollectSpec(events, f, ToMeeting);
  }

  /** get_meetings_for_date succeeds exactly when every kept event converts,
      and then returns one record per kept event, in the input order. */
  lemma DigestSpec(events: seq<RawEvent>, f: Filters)
    ensures var r, kept := DigestOf(events, f), Filter(events, KeptFilter(f));
      && (r.Ok? <==> forall i | 0 <= i < |kept| :: ToDigestEntry(kept[i]).Ok?)
      && (r.Ok? ==> |r.value| == |kept| && forall i | 0 <= i < |kept| :: ToDigestEntry(kept[i]) == Ok(r.value[i]))
  {
    CollectSpec(events, f, ToDigestEntry);
  }

  // ---------------------------------------------------------------------
  // The query windows

  /** get_upcoming_meetings asks for events between now and now + lookahead. */
  function UpcomingWindow(now: int, lookaheadMinutes: int): (q: Query)
    ensures q.Upcoming? && q.timeMin == now && q.timeMax - q.timeMin == lookaheadMinutes * 60
  {
    Upcoming(now, now + lookaheadMinutes * 60)
  }

  /** get_meetings_for_date asks for [local midnight of the date, the next
      local midnight); the day after 9999-12-31 does not exist. */
  function DayWindow(t: LocalDateTime): Result<Query>
    requires ValidDate(t.date)
  {
    match NextDay(t.date)
    case None => Err("OverflowError: date value out of range")
    case Some(next) => Ok(ForDay(LocalDateTime(t.date, 0, 0, 0), LocalDateTime(next, 0, 0, 0)))
  }

  /** The day window holds exactly the wall-clock readings of that date, and
      it fails only for the last representable date. */
  lemma DayWindowSpec(t: LocalDateTime, x: LocalDateTime)
    requires ValidDate(t.date) && ValidLocal(x)
    ensures DayWindow(t).Err? <==> t.date == Date(9999, 12, 31)
    ensures DayWindow(t).Ok? ==>
      var q := DayWindow(t).value;
      && q.ForDay?
      && DayNumber(q.dayEnd.date) == DayNumber(q.dayStart.date) + 1
      && ((!LocalBefore(x, q.dayStart) && LocalBefore(x, q.dayEnd)) <==> x.date == t.date)
  {
    NextDayNumber(t.date);
    if NextDay(t.date).Some? {
      NextDayIsSuccessor(t.date, x.date);
    }
  }

  // ---------------------------------------------------------------------
  // The loops

  /** The inner loop over the attendees, stopping at the first owner that
      declined. */
  method FindDeclined(attendees: seq<Attendee>) returns (isDeclined: bool)
    ensures isDeclined <==> exists i | 0 <= i < |attendees| :: DeclinedBySelf(attendees[i])
  {
    isDeclined := false;
    var i := 0;
    while i < |attendees|
      invariant 0 <= i <= |attendees|
      invariant forall j | 0 <= j < i :: !DeclinedBySelf(attendees[j])
    {
      var a := attendees[i];
      if a.isSelf && a.responseStatus == Some("declined") {
        isDeclined := true;
        break;
      }
      i := i + 1;
    }
  }

  /** The three skips of both loops. */
  method KeepEvent(e: RawEvent, f: Filters) returns (keep: bool, isAllDay: bool, isDeclined: bool)
    ensures keep == Kept(e, f) && isAllDay == IsAllDay(e)
    ensures keep ==> isDeclined == IsDeclined(e)
  {
    isAllDay := e.start.date.Some? && e.start.dateTime.None?;
    isDeclined := false;
    if isAllDay && f.isSkipAllDayEvents {
      return false, isAllDay, isDeclined;
    }
    if e.status == Some("cancelled") {
      return false, isAllDay, isDeclined;
    }
    isDeclined := FindDeclined(e.attendees);
    if isDeclined && f.isSkipDeclinedEvents {
      return false, isAllDay, isDeclined;
    }
    keep := true;
  }

  /** The per-event loop of get_upcoming_meetings. */
  method GetUpcomingMeetings(events: seq<RawEvent>, f: Filters) returns (r: Result<seq<Meeting>>)
    ensures r == UpcomingOf(events, f)
  {
    var meetings: seq<Meeting> := [];
    var i := 0;
    while i < |events|
      invariant 0 <= i <= |events|
      invariant UpcomingOf(events[..i], f) == Ok(meetings)
    {
      var e := events[i];
      assert events[..i + 1][..i] == events[..i];
      var keep, isAllDay, isDeclined := KeepEvent(e, f);
      if keep {
        var failure: Option<string> := None;
        var startTime, endTime := 0, 0;
        if isAllDay {
          if !ValidDate(e.start.date.value) {
            failure := Some("invalid isoformat date");
          } else if e.end.date.None? {
            failure := Some("KeyError: 'date'");
          } else if !ValidDate(e.end.date.value) {
            failure := Some("invalid isoformat date");
          } else {
            startTime := MidnightUtc(e.start.date.value);
            endTime := MidnightUtc(e.end.date.value);
          }
        } else if e.start.dateTime.None? {
          failure := Some("KeyError: 'dateTime'");
        } else if !ValidLocal(e.start.dateTime.value.wall) {
          failure := Some("invalid isoformat datetime");
        } else if e.end.dateTime.None? {
          failure := Some("KeyError: 'dateTime'");
        } else if !ValidLocal(e.end.dateTime.value.wall) {
          failure := Some("invalid isoformat datetime");
        } else {
          startTime := e.start.dateTime.value.instant;
          endTime := e.end.dateTime.value.instant;
        }
        if failure.Some? {
          r := Err(failure.value);
          CollectErrSticks(events[..i + 1], events[i + 1..], f, ToMeeting);
          assert events[..i + 1] + events[i + 1..] == events;
          return;
        }
        var summary := if e.summary.Some? then e.summary.value else "(No title)";
        var link := if e.htmlLink.Some? then e.htmlLink.value else "";
        meetings := meetings + [Meeting(e.id, summary, startTime, endTime, isAllDay, isDeclined, false, link)];
      }
      i := i + 1;
    }
    assert events[..i] == events;
    r := Ok(meetings);
  }

  /** The per-event loop of get_meetings_for_date. */
  method GetMeetingsForDate(events: seq<RawEvent>, f: Filters) returns (r: Result<seq<DigestEntry>>)
    ensures r == DigestOf(events, f)
  {
    var result: seq<DigestEntry> := [];
    var i := 0;
    while i < |events|
      invariant 0 <= i <= |events|
      invariant DigestOf(events[..i], f) == Ok(result)
    {
      var e := events[i];
      assert events[..i + 1][..i] == events[..i];
      var keep, isAllDay, isDeclined := KeepEvent(e, f);
      if keep {
        var summary := if e.summary.Some? then e.summary.value else "(No title)";
        if isAllDay {
          result := result + [DigestEntry(summary, "All day", "")];
        } else {
          var failure: Option<string> := None;
          if e.start.dateTime.None? {
            failure := Some("KeyError: 'dateTime'");
          } else if !ValidLocal(e.start.dateTime.value.wall) {
            failure := Some("invalid isoformat datetime");
          } else if e.end.dateTime.None? {
            failure := Some("KeyError: 'dateTime'");
          } else if !ValidLocal(e.end.dateTime.value.wall) {
            failure := Some("invalid isoformat datetime");
          }
          if failure.Some? {
            r := Err(failure.value);
            CollectErrSticks(events[..i + 1], events[i + 1..], f, ToDigestEntry);
            assert events[..i + 1] + events[i + 1..] == events;
            return;
          }
          var startText := ClockText(e.start.dateTime.value.wall);
          var endText := ClockText(e.end.dateTime.value.wall);
          result := result + [DigestEntry(summary, startText, endText)];
        }
      }
      i := i + 1;
    }
    assert events[..i] == events;
    r := Ok(result);
  }
}
