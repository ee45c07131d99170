/** The scheduler: on every poll, for each user in turn, the morning and
    evening digests, then the calendar fetch, the tracker update, the
    reminders and the clean-up; and the handlers the Slack side calls for
    confirmations and on-demand digests.

    The clock is a parameter: `now` is the poll's instant in seconds and
    `local` its wall-clock reading in the machine's time zone. The calendar
    API is the Fetcher of the Calendar module, and Slack's answer to
    conversations_open is a directory from user id to channel id. */
module Scheduler {
  import opened Wrappers
  import opened Text
  import opened Seqs
  import opened Dates
  import opened Models
  import opened Tracker
  import opened Calendar
  import opened Slack

  const MorningDigestHour := 8
  const EveningDigestHour := 22

  // ---------------------------------------------------------------------
  // Minutes until a meeting

  /** int((start - now).total_seconds() / 60): true division, then
      truncation toward zero. */
  function MinutesUntil(startTime: int, now: int): int {
    var d := startTime - now;
    if d >= 0 then d / 60 else -((-d) / 60)
  }

  /** The count is the whole minutes until the start, rounded toward zero:
      it reads 0 ("is starting NOW") for a whole minute either side of the
      start. */
  lemma MinutesUntilSpec(startTime: int, now: int)
    ensures var d, m := startTime - now, MinutesUntil(startTime, now);
      && (d >= 0 ==> 0 <= m * 60 <= d < m * 60 + 60)
      && (d < 0 ==> m * 60 - 60 < d <= m * 60 <= 0)
      && (m == 0 <==> -60 < d < 60)
  {
  }

  /** A meeting that started 59 seconds ago is "starting NOW"; one that
      started 61 seconds ago "started 1 minute ago" (a floor would say 2). */
  lemma MinutesUntilExamples()
    ensures MinutesUntil(1000, 1059) == 0
    ensures MinutesUntil(1000, 1061) == -1
    ensures MinutesUntil(1000, 1121) == -2
    ensures MinutesUntil(1119, 1000) == 1
  {
  }

  // ---------------------------------------------------------------------
  // Digests

  function MorningKey(d: Date): string
    requires ValidDate(d)
  {
    "morning-" + DateText(d)
  }

  function EveningKey(d: Date): string
    requires ValidDate(d)
  {
    "evening-" + DateText(d)
  }

  /** One key per date and kind: a morning key is never an evening key, and
      different dates have different keys. */
  lemma DigestKeysDistinct(a: Date, b: Date)
    requires ValidDate(a) && ValidDate(b)
    ensures MorningKey(a) != EveningKey(b)
    ensures MorningKey(a) == MorningKey(b) ==> a == b
    ensures EveningKey(a) == EveningKey(b) ==> a == b
  {
    assert MorningKey(a)[0] != EveningKey(b)[0];
    if MorningKey(a) == MorningKey(b) {
      AppendCancel("morning-", DateText(a), DateText(b));
      DateTextInjective(a, b);
    }
    if EveningKey(a) == EveningKey(b) {
      AppendCancel("evening-", DateText(a), DateText(b));
      DateTextInjective(a, b);
    }
  }

  predicate InDigestWindow(t: LocalDateTime, hour: int) {
    t.hour == hour && t.minute < 2
  }

  predicate MorningFires(sent: set<string>, t: LocalDateTime)
    requires ValidDate(t.date)
  {
    InDigestWindow(t, MorningDigestHour) && MorningKey(t.date) !in sent
  }

  predicate EveningFires(sent: set<string>, t: LocalDateTime)
    requires ValidDate(t.date)
  {
    InDigestWindow(t, EveningDigestHour) && EveningKey(t.date) !in sent
  }

  /** The keys recorded after one check: each key is recorded before its
      digest is fetched, so a failed fetch is not retried. */
  function StepSent(sent: set<string>, t: LocalDateTime): (r: set<string>)
    requires ValidDate(t.date)
    ensures sent <= r
  {
    EveningSent(MorningSent(sent, t), t)
  }

  function MorningSent(sent: set<string>, t: LocalDateTime): set<string>
    requires ValidDate(t.date)
  {
    if MorningFires(sent, t) then sent + {MorningKey(t.date)} else sent
  }

  function EveningSent(sent: set<string>, t: LocalDateTime): set<string>
    requires ValidDate(t.date)
  {
    if EveningFires(sent, t) then sent + {EveningKey(t.date)} else sent
  }

  /** The keys recorded after checks at the readings `ts`, in order. */
  function SentAfter(sent: set<string>, ts: seq<LocalDateTime>): set<string>
    requires forall i | 0 <= i < |ts| :: ValidDate(ts[i].date)
    decreases |ts|
  {
    if ts == [] then sent else StepSent(SentAfter(sent, ts[..|ts| - 1]), ts[|ts| - 1])
  }

  /** The dates whose morning digest went out during checks at `ts`. */
  function MorningFirings(sent: set<string>, ts: seq<LocalDateTime>): seq<Date>
    requires forall i | 0 <= i < |ts| :: ValidDate(ts[i].date)
    decreases |ts|
  {
    if ts == [] then []
    else
      var init, last := ts[..|ts| - 1], ts[|ts| - 1];
      MorningFirings(sent, init) + (if MorningFires(SentAfter(sent, init), last) then [last.date] else [])
  }

  /** At most one morning digest per date, however often the check runs and
      whatever the clock does, and never one for a date already recorded;
      recorded keys are never forgotten. */
  lemma {:induction false} MorningOncePerDate(sent: set<string>, ts: seq<LocalDateTime>)
    requires forall i | 0 <= i < |ts| :: ValidDate(ts[i].date)
    ensures var fired := MorningFirings(sent, ts);
      && Distinct(fired)
      && (forall i | 0 <= i < |fired| :: ValidDate(fired[i]) && MorningKey(fired[i]) !in sent
                                        && MorningKey(fired[i]) in SentAfter(sent, ts))
      && sent <= SentAfter(sent, ts)
    decreases |ts|
  {
    if ts != [] {
      var init, last := ts[..|ts| - 1], ts[|ts| - 1];
      MorningOncePerDate(sent, init);
      var before := MorningFirings(sent, init);
      var s0 := SentAfter(sent, init);
      assert SentAfter(sent, ts) == StepSent(s0, last);
      if MorningFires(s0, last) {
        forall i | 0 <= i < |before|
          ensures before[i] != last.date
        {
          assert MorningKey(before[i]) in s0;
        }
      }
    }
  }

  /** The dates whose evening digest went out during checks at `ts`; each
      check's evening half reads the keys its morning half left. */
  function EveningFirings(sent: set<string>, ts: seq<LocalDateTime>): seq<Date>
    requires forall i | 0 <= i < |ts| :: ValidDate(ts[i].date)
    decreases |ts|
  {
    if ts == [] then []
    else
      var init, last := ts[..|ts| - 1], ts[|ts| - 1];
      EveningFirings(sent, init)
      + (if EveningFires(MorningSent(SentAfter(sent, init), last), last) then [last.date] else [])
  }

  /** At most one evening digest per date, however often the check runs and
      whatever the clock does, and never one for a date already recorded;
      the morning digests recorded in between do not get in the way. */
  lemma {:induction false} EveningOncePerDate(sent: set<string>, ts: seq<LocalDateTime>)
    requires forall i | 0 <= i < |ts| :: ValidDate(ts[i].date)
    ensures var fired := EveningFirings(sent, ts);
      && Distinct(fired)
      && (forall i | 0 <= i < |fired| :: ValidDate(fired[i]) && EveningKey(fired[i]) !in sent
                                        && EveningKey(fired[i]) in SentAfter(sent, ts))
      && sent <= SentAfter(sent, ts)
    decreases |ts|
  {
    if ts != [] {
      var init, last := ts[..|ts| - 1], ts[|ts| - 1];
      EveningOncePerDate(sent, init);
      var before := EveningFirings(sent, init);
      var s0 := SentAfter(sent, init);
      var s1 := MorningSent(s0, last);
      assert s0 <= s1;
      assert SentAfter(sent, ts) == EveningSent(s1, last);
      if EveningFires(s1, last) {
        forall i | 0 <= i < |before|
          ensures before[i] != last.date
        {
          assert EveningKey(before[i]) in s1;
        }
      }
    }
  }

  function TodayHeader(d: Date): string
    requires ValidDate(d)
  {
    "Today's meetings (" + DayLabel(d) + ")"
  }

  function TomorrowHeader(d: Date): string
    requires ValidDate(d)
  {
    "Tomorrow's meetings (" + DayLabel(d) + ")"
  }

  /** local_now + timedelta(days=1); None where datetime overflows. */
  function Tomorrow(t: LocalDateTime): (r: Option<LocalDateTime>)
    requires ValidLocal(t)
    ensures r.Some? ==> ValidLocal(r.value) && DayNumber(r.value.date) == DayNumber(t.date) + 1
    ensures r.None? <==> t.date == Date(9999, 12, 31)
  {
    NextDayNumber(t.date);
    match NextDay(t.date)
    case None => None
    case Some(next) => Some(LocalDateTime(next, t.hour, t.minute, t.second))
  }

  function FiltersOf(s: Settings): Filters {
    Filters(s.isSkipAllDayEvents, s.isSkipDeclinedEvents)
  }

  /** get_meetings_for_date: the day's digest entries, or the error the
      request or the parsing raised. */
  function DayEntries(config: UserConfig, t: LocalDateTime, fetch: Fetcher, f: Filters): Result<seq<DigestEntry>>
    requires ValidDate(t.date)
  {
    match DayWindow(t)
    case Err(e) => Err(e)
    case Ok(q) =>
      match fetch(config, q)
      case Err(e) => Err(e)
      case Ok(events) => DigestOf(events, f)
  }

  /** The digest post, if the entries arrived and the user can be reached. */
  function DigestPost(cache: map<string, string>, directory: map<string, string>, userId: string,
                      header: string, entries: Result<seq<DigestEntry>>): seq<Post>
  {
    var channel := ChannelLookup(cache, directory, userId);
    if entries.Ok? && channel.Ok? then [Post(channel.value, DigestText(header, entries.value, "", ""))] else []
  }

  /** Today's digest for one user (send_today_digest, and the morning
      digest). */
  function TodayPosts(config: UserConfig, t: LocalDateTime, fetch: Fetcher, f: Filters,
                      cache: map<string, string>, directory: map<string, string>): seq<Post>
    requires ValidLocal(t)
  {
    DigestPost(cache, directory, config.slackUserId, TodayHeader(t.date), DayEntries(config, t, fetch, f))
  }

  /** Tomorrow's digest for one user (send_tomorrow_digest, and the evening
      digest); nothing when the day after cannot be formed. */
  function TomorrowPosts(config: UserConfig, t: LocalDateTime, fetch: Fetcher, f: Filters,
                         cache: map<string, string>, directory: map<string, string>): seq<Post>
    requires ValidLocal(t)
  {
    match Tomorrow(t)
    case None => []
    case Some(next) =>
      DigestPost(cache, directory, config.slackUserId, TomorrowHeader(next.date), DayEntries(config, next, fetch, f))
  }

  /** What the morning half of a digest check posts. */
  function MorningPosts(sent: set<string>, t: LocalDateTime, config: UserConfig, fetch: Fetcher, f: Filters,
                        cache: map<string, string>, directory: map<string, string>): seq<Post>
    requires ValidLocal(t)
  {
    if MorningFires(sent, t) then TodayPosts(config, t, fetch, f, cache, directory) else []
  }

  /** What the evening half posts. */
  function EveningPosts(sent: set<string>, t: LocalDateTime, config: UserConfig, fetch: Fetcher, f: Filters,
                        cache: map<string, string>, directory: map<string, string>): seq<Post>
    requires ValidLocal(t)
  {
    if EveningFires(sent, t) then TomorrowPosts(config, t, fetch, f, cache, directory) else []
  }

  /** A digest is posted exactly when the day's entries arrived and the user
      can be reached; it is one message to the user's channel that names the
      header in bold and has a line for every entry. */
  lemma DigestPostSpec(cache: map<string, string>, directory: map<string, string>, userId: string, header: string,
                       entries: Result<seq<DigestEntry>>)
    ensures var posts := DigestPost(cache, directory, userId, header, entries);
      && (posts != [] <==> entries.Ok? && Reachable(cache, directory, userId))
      && (posts != [] ==>
            && |posts| == 1
            && posts[0].channel == ChannelLookup(cache, directory, userId).value
            && Contains(posts[0].text, Bold(header))
            && forall i | 0 <= i < |entries.value| :: Contains(posts[0].text, EntryLine(entries.value[i])))
  {
    if entries.Ok? {
      DigestTextSpec(header, entries.value, "", "");
    }
  }

  /** Tomorrow's digest is about the day after, by day number, and there is
      none on the last representable date. */
  lemma TomorrowPostsSpec(config: UserConfig, t: LocalDateTime, fetch: Fetcher, f: Filters,
                          cache: map<string, string>, directory: map<string, string>)
    requires ValidLocal(t)
    ensures t.date == Date(9999, 12, 31) ==> TomorrowPosts(config, t, fetch, f, cache, directory) == []
    ensures var posts := TomorrowPosts(config, t, fetch, f, cache, directory);
      posts != [] ==>
        && Tomorrow(t).Some?
        && DayNumber(Tomorrow(t).value.date) == DayNumber(t.date) + 1
        && |posts| == 1
        && Contains(posts[0].text, Bold(TomorrowHeader(Tomorrow(t).value.date)))
  {
    var next := Tomorrow(t);
    if next.Some? {
      DigestPostSpec(cache, directory, config.slackUserId, TomorrowHeader(next.value.date),
                     DayEntries(config, next.value, fetch, f));
    }
  }

  /** What one digest check posts: the morning half, then the evening half
      against the keys the morning half left. */
  function DigestPosts(sent: set<string>, t: LocalDateTime, config: UserConfig, fetch: Fetcher, f: Filters,
                       cache: map<string, string>, directory: map<string, string>): seq<Post>
    requires ValidLocal(t)
  {
    MorningPosts(sent, t, config, fetch, f, cache, directory)
    + EveningPosts(MorningSent(sent, t), t, config, fetch, f, cache, directory)
  }

  /** The two windows are hours apart, so a check posts at most one digest,
      and records a key exactly when a window is open and its key is new. */
  lemma DigestPostsAtMostOne(sent: set<string>, t: LocalDateTime, config: UserConfig, fetch: Fetcher, f: Filters,
                             cache: map<string, string>, directory: map<string, string>)
    requires ValidLocal(t)
    ensures |DigestPosts(sent, t, config, fetch, f, cache, directory)| <= 1
    ensures DigestPosts(sent, t, config, fetch, f, cache, directory) != [] ==>
              MorningFires(sent, t) || EveningFires(sent, t)
    ensures StepSent(sent, t) != sent <==> MorningFires(sent, t) || EveningFires(sent, t)
  {
    DigestKeysDistinct(t.date, t.date);
  }

  /** The scheduler's digests carry no preamble. */
  lemma SchedulerDigestsPlain(header: string, meetings: seq<DigestEntry>)
    ensures StartsWith(DigestText(header, meetings, "", ""), if meetings == [] then Bold(header)
                                                          else FirstLine(meetings[0].startTime))
  {
    DigestTextSpec(header, meetings, "", "");
    assert Preamble("", "") == "";
    assert Bold(header) == "" + Bold(header);
    if meetings != [] {
      assert FirstLine(meetings[0].startTime) == "" + FirstLine(meetings[0].startTime);
    }
  }

  // ---------------------------------------------------------------------
  // One user's reminders

  /** get_upcoming_meetings for one user at `now`. */
  function UserFetch(config: UserConfig, now: int, s: Settings, fetch: Fetcher): Result<seq<Meeting>> {
    match fetch(config, UpcomingWindow(now, s.lookaheadMinutes))
    case Err(e) => Err(e)
    case Ok(events) => UpcomingOf(events, FiltersOf(s))
  }

  /** mark_pinged for each of `ks`, in order. */
  function MarkAll(t: Table, ks: seq<string>, now: int): Table
    decreases |ks|
  {
    if ks == [] then t else MarkPingedTable(MarkAll(t, ks[..|ks| - 1], now), ks[|ks| - 1], now)
  }

  /** Marking a list of distinct tracked ids marks each of them exactly once
      and leaves every other entry alone. */
  lemma {:induction false} MarkAllSpec(t: Table, ks: seq<string>, now: int)
    requires WellFormed(t) && Distinct(ks)
    requires forall k | k in ks :: k in t.entries
    ensures var r := MarkAll(t, ks, now);
      && WellFormed(r) && r.keys == t.keys && r.entries.Keys == t.entries.Keys
      && (forall k | k in t.entries :: r.entries[k] ==
            if k in ks then t.entries[k].(lastPingAt := Some(now), pingCount := t.entries[k].pingCount + 1)
            else t.entries[k])
    decreases |ks|
  {
    if ks != [] {
      var init, last := ks[..|ks| - 1], ks[|ks| - 1];
      assert ks == init + [last];
      MarkAllSpec(t, init, now);
      MarkPingedSpec(MarkAll(t, init, now), last, now);
    }
  }

  lemma MarkAllStep(t: Table, ks: seq<string>, j: int, now: int)
    requires 0 <= j < |ks|
    ensures MarkAll(t, ks[..j + 1], now) == MarkPingedTable(MarkAll(t, ks[..j], now), ks[j], now)
  {
    assert ks[..j + 1][..j] == ks[..j];
  }

  /** send_ping for a tracked entry: the reminder shows the minutes until
      the start and the ordinal pingCount + 1. */
  function PingPost(s: PingState, now: int, phrase: string, channel: string): Post {
    Post(channel, PingText(s.meeting.summary, MinutesUntil(s.meeting.startTime, now), s.pingCount + 1, phrase))
  }

  function PostOf(now: int, phrase: string, channel: string): PingState -> Post {
    s => PingPost(s, now, phrase, channel)
  }

  /** The reminders for `ks`, in order, to one channel. */
  function PingPosts(t: Table, ks: seq<string>, now: int, phrase: string, channel: string): seq<Post>
    requires forall k | k in ks :: k in t.entries
  {
    Project(t.entries, ks, PostOf(now, phrase, channel))
  }

  lemma PingPostsStep(t: Table, ks: seq<string>, j: int, now: int, phrase: string, channel: string)
    requires 0 <= j < |ks|
    requires forall k | k in ks :: k in t.entries
    ensures PingPosts(t, ks[..j + 1], now, phrase, channel)
              == PingPosts(t, ks[..j], now, phrase, channel) + [PingPost(t.entries[ks[j]], now, phrase, channel)]
  {
    ProjectStep(t.entries, ks, j, PostOf(now, phrase, channel));
  }

  /** Whether a user's direct-message channel is known or can be opened. */
  predicate Reachable(cache: map<string, string>, directory: map<string, string>, userId: string) {
    userId in cache || userId in directory
  }

  /** The table one user's part of a poll leaves: a failed fetch leaves the
      table alone; otherwise the snapshot is merged, the scan moves entries to
      PINGING, every due entry is marked as reminded, and stale entries are
      dropped — unless a reminder was due and the user cannot be reached, in
      which case the first send_ping raises and nothing after the scan
      happens. */
  function TickTable(t: Table, fetched: Result<seq<Meeting>>, now: int, lead: int, interval: int,
                     isReachable: bool): Table
  {
    match fetched
    case Err(_) => t
    case Ok(meetings) =>
      var merged := Merge(t, meetings, now);
      var due := DueKeys(merged, now, lead, interval);
      var advanced := AdvanceAll(merged, now, lead);
      if due != [] && !isReachable then advanced
      else CleanupTable(MarkAll(advanced, due, now), now)
  }

  /** The reminders one user's part of a poll posts. */
  function TickPosts(t: Table, fetched: Result<seq<Meeting>>, now: int, lead: int, interval: int,
                     phrase: string, channel: Result<string>): seq<Post>
    requires WellFormed(t)
  {
    match fetched
    case Err(_) => []
    case Ok(meetings) =>
      var merged := Merge(t, meetings, now);
      var due := DueKeys(merged, now, lead, interval);
      if channel.Err? then []
      else
        assert forall k | k in due :: k in AdvanceAll(merged, now, lead).entries by {
          MergeSpec(t, meetings, now);
          SelectionSpec(merged, now, lead, interval);
        }
        PingPosts(AdvanceAll(merged, now, lead), due, now, phrase, channel.value)
  }

  lemma MergeWellFormed(t: Table, meetings: seq<Meeting>, now: int)
    requires WellFormed(t)
    ensures WellFormed(Merge(t, meetings, now))
  {
    MergeSpec(t, meetings, now);
  }

  /** The due entries after a successful, reachable poll: each is PINGING,
      was reminded at `now`, and its count went up by exactly one, to the
      ordinal its reminder showed. */
  lemma TickMarksDue(t: Table, meetings: seq<Meeting>, now: int, lead: int, interval: int, k: string)
    requires WellFormed(t)
    requires k in DueKeys(Merge(t, meetings, now), now, lead, interval)
    ensures var merged := Merge(t, meetings, now);
      var r := TickTable(t, Ok(meetings), now, lead, interval, true);
      && k in merged.entries
      && WellFormed(r)
      && (k in r.entries ==>
            && r.entries[k].status == Pinging
            && r.entries[k].lastPingAt == Some(now)
            && r.entries[k].pingCount == merged.entries[k].pingCount + 1
            && r.entries[k].meeting == merged.entries[k].meeting)
  {
    var merged := Merge(t, meetings, now);
    MergeSpec(t, meetings, now);
    var due := DueKeys(merged, now, lead, interval);
    SelectionSpec(merged, now, lead, interval);
    var advanced := AdvanceAll(merged, now, lead);
    AdvanceSpec(merged, now, lead);
    MarkAllSpec(advanced, due, now);
    CleanupSpec(MarkAll(advanced, due, now), now);
  }

  /** A poll keeps the table well formed. */
  lemma TickWellFormed(t: Table, fetched: Result<seq<Meeting>>, now: int, lead: int, interval: int, isReachable: bool)
    requires WellFormed(t)
    ensures WellFormed(TickTable(t, fetched, now, lead, interval, isReachable))
  {
    if fetched.Ok? {
      var merged := Merge(t, fetched.value, now);
      MergeSpec(t, fetched.value, now);
      var due := DueKeys(merged, now, lead, interval);
      SelectionSpec(merged, now, lead, interval);
      var advanced := AdvanceAll(merged, now, lead);
      AdvanceSpec(merged, now, lead);
      MarkAllSpec(advanced, due, now);
      CleanupSpec(MarkAll(advanced, due, now), now);
    }
  }

  /** No meeting is reminded twice within the ping interval: an entry that
      a poll reminded (and kept) is not due at any later poll less than an
      interval afterwards, whatever that poll's snapshot holds. */
  lemma NoPingWithinInterval(t: Table, meetings: seq<Meeting>, now: int, lead: int, interval: int, k: string,
                             later: seq<Meeting>, now2: int)
    requires WellFormed(t)
    requires k in DueKeys(Merge(t, meetings, now), now, lead, interval)
    requires k in TickTable(t, Ok(meetings), now, lead, interval, true).entries
    requires now <= now2 < now + interval
    ensures var r := TickTable(t, Ok(meetings), now, lead, interval, true);
      k !in DueKeys(Merge(r, later, now2), now2, lead, interval)
  {
    var r := TickTable(t, Ok(meetings), now, lead, interval, true);
    TickMarksDue(t, meetings, now, lead, interval, k);
    var merged2 := Merge(r, later, now2);
    MergeSpec(r, later, now2);
    SelectionSpec(merged2, now2, lead, interval);
  }

  /** The reminder a tracked entry gets does not depend on its status. */
  lemma PingPostIgnoresStatus(s: PingState, status: PingStatus, now: int, phrase: string, channel: string)
    ensures PingPost(s.(status := status), now, phrase, channel) == PingPost(s, now, phrase, channel)
  {
  }

  /** The reminders a successful, reachable poll posts: one per due entry,
      in table order, each about that entry as the merge left it (so its
      ordinal is the count TickMarksDue says the entry is left with). */
  lemma TickPostsSpec(t: Table, meetings: seq<Meeting>, now: int, lead: int, interval: int,
                      phrase: string, channel: string)
    requires WellFormed(t)
    ensures var merged := Merge(t, meetings, now);
      var due := DueKeys(merged, now, lead, interval);
      var posts := TickPosts(t, Ok(meetings), now, lead, interval, phrase, Ok(channel));
      && |posts| == |due|
      && forall n | 0 <= n < |due| ::
           due[n] in merged.entries && posts[n] == PingPost(merged.entries[due[n]], now, phrase, channel)
  {
    var merged := Merge(t, meetings, now);
    MergeWellFormed(t, meetings, now);
    var due := DueKeys(merged, now, lead, interval);
    var advanced := AdvanceAll(merged, now, lead);
    AdvancedEntries(merged, now, lead, interval);
    assert TickPosts(t, Ok(meetings), now, lead, interval, phrase, Ok(channel))
        == PingPosts(advanced, due, now, phrase, channel);
    PingPostsOfVariants(merged, advanced, due, now, phrase, channel);
  }

  /** The entries the scan selects are tracked before and after it, and the
      scan changes only their status. */
  lemma AdvancedEntries(merged: Table, now: int, lead: int, interval: int)
    requires WellFormed(merged)
    ensures var advanced := AdvanceAll(merged, now, lead);
      forall k | k in DueKeys(merged, now, lead, interval) ::
        && k in merged.entries && k in advanced.entries
        && advanced.entries[k] == merged.entries[k].(status := advanced.entries[k].status)
  {
    SelectionSpec(merged, now, lead, interval);
    AdvanceSpec(merged, now, lead);
  }

  /** Reminders about entries that differ only in status are the same. */
  lemma PingPostsOfVariants(t: Table, u: Table, ks: seq<string>, now: int, phrase: string, channel: string)
    requires forall k | k in ks ::
      k in t.entries && k in u.entries && u.entries[k] == t.entries[k].(status := u.entries[k].status)
    ensures var posts := PingPosts(u, ks, now, phrase, channel);
      && |posts| == |ks|
      && forall n | 0 <= n < |ks| :: posts[n] == PingPost(t.entries[ks[n]], now, phrase, channel)
  {
    var f := PostOf(now, phrase, channel);
    ProjectSpec(u.entries, ks, f);
    forall n | 0 <= n < |ks|
      ensures f(u.entries[ks[n]]) == PingPost(t.entries[ks[n]], now, phrase, channel)
    {
      PingPostIgnoresStatus(t.entries[ks[n]], u.entries[ks[n]].status, now, phrase, channel);
    }
  }

  /** Everything the Slack cache learns comes from Slack's directory, and
      nothing it knew is forgotten or changed. */
  predicate CacheGrows(before: map<string, string>, after: map<string, string>, directory: map<string, string>) {
    && (forall u | u in before :: u in after && after[u] == before[u])
    && (forall u | u in after :: u in before || (u in directory && after[u] == directory[u]))
  }

  /** A growing cache answers every lookup the way the first one did. */
  lemma CacheGrowsLookup(before: map<string, string>, after: map<string, string>, directory: map<string, string>,
                         userId: string)
    requires CacheGrows(before, after, directory)
    ensures ChannelLookup(after, directory, userId) == ChannelLookup(before, directory, userId)
  {
  }

  lemma CacheGrowsTrans(a: map<string, string>, b: map<string, string>, c: map<string, string>,
                        directory: map<string, string>)
    requires CacheGrows(a, b, directory) && CacheGrows(b, c, directory)
    ensures CacheGrows(a, c, directory)
  {
  }

  lemma CacheAfterGrows(cache: map<string, string>, directory: map<string, string>, userId: string)
    ensures CacheGrows(cache, CacheAfter(cache, directory, userId), directory)
  {
  }

  /** The reply a reminder suggests, `<phrase> for <summary>`, is read as a
      confirmation naming the summary, lowercased. The phrase and the
      summary must not begin or end with white space (Slack's message would
      lose it). */
  lemma PingReplyReads(configPhrase: string, summary: string, raw: string)
    requires configPhrase != [] && !IsSpace(configPhrase[0]) && !IsSpace(configPhrase[|configPhrase| - 1])
    requires summary != [] && !IsSpace(summary[0]) && !IsSpace(summary[|summary| - 1])
    requires raw == configPhrase + " for " + summary
    ensures ClassifyAsWritten(raw, true, Lower(configPhrase)) == Confirmation(Lower(summary))
  {
    var phrase, name := Lower(configPhrase), Lower(summary);
    PingReplyText(configPhrase, summary, raw);
    NameStripped(summary);
    PrefixedNotCommand(phrase, name);
    PrefixedConfirmation(phrase, name);
    ClassifyOther(raw, phrase);
  }

  /** A lowered summary with no white space at its ends is its own strip. */
  lemma NameStripped(summary: string)
    requires summary != [] && !IsSpace(summary[0]) && !IsSpace(summary[|summary| - 1])
    ensures Lower(summary) != "" && Strip(Lower(summary)) == Lower(summary)
  {
    LowerStripCommute(summary);
    StripOfTrimmed(summary);
  }

  /** `<phrase> for <name>` is neither command. */
  lemma PrefixedNotCommand(phrase: string, name: string)
    ensures var text := ConfirmPrefix(phrase) + name;
      text != "today" && text != "tomorrow"
  {
    var text := ConfirmPrefix(phrase) + name;
    assert text[|phrase|] == ' ';
    SpacedNotCommand(text, |phrase|);
  }

  /** `<phrase> for <name>` names `name` when it is already stripped. */
  lemma PrefixedConfirmation(phrase: string, name: string)
    requires name != "" && Strip(name) == name
    ensures ReadConfirmation(ConfirmPrefix(phrase) + name, phrase) == Confirmation(name)
  {
    var prefix := ConfirmPrefix(phrase);
    StartsWithAppend(prefix, name);
    assert (prefix + name)[|prefix|..] == name;
  }

  /** A registered message that is neither command is read by
      ReadConfirmation. */
  lemma ClassifyOther(raw: string, phrase: string)
    requires var text := MessageText(raw); text != "today" && text != "tomorrow"
    ensures ClassifyAsWritten(raw, true, phrase) == ReadConfirmation(MessageText(raw), phrase)
  {
  }

  /** The reply's text as handle_message sees it. */
  lemma PingReplyText(configPhrase: string, summary: string, raw: string)
    requires configPhrase != [] && !IsSpace(configPhrase[0])
    requires summary != [] && !IsSpace(summary[|summary| - 1])
    requires raw == configPhrase + " for " + summary
    ensures MessageText(raw) == ConfirmPrefix(Lower(configPhrase)) + Lower(summary)
  {
    assert raw[0] == configPhrase[0] && raw[|raw| - 1] == summary[|summary| - 1];
    StripOfTrimmed(raw);
    LowerAppend(configPhrase + " for ", summary);
    LowerAppend(configPhrase, " for ");
    ForIsLowerCase();
  }

  lemma ForIsLowerCase()
    ensures Lower(" for ") == " for "
  {
    var l := Lower(" for ");
    assert l[0] == ' ' && l[1] == 'f' && l[2] == 'o' && l[3] == 'r' && l[4] == ' ';
  }

  /** Text with a space in it is neither command. */
  lemma SpacedNotCommand(text: string, i: int)
    requires 0 <= i < |text| && text[i] == ' '
    ensures text != "today" && text != "tomorrow"
  {
    assert forall j | 0 <= j < |"today"| :: "today"[j] != ' ';
    assert forall j | 0 <= j < |"tomorrow"| :: "tomorrow"[j] != ' ';
  }

  /** Replying with the text a reminder suggests stops that reminder: the
      reply is read as a confirmation, confirm_by_name then confirms a
      PINGING entry, and the answer says the pings stopped. */
  lemma PingReplyConfirms(t: Table, k: string, configPhrase: string, raw: string)
    requires WellFormed(t) && k in t.entries && t.entries[k].status == Pinging
    requires var summary := t.entries[k].meeting.summary;
      && configPhrase != [] && !IsSpace(configPhrase[0]) && !IsSpace(configPhrase[|configPhrase| - 1])
      && summary != [] && !IsSpace(summary[0]) && !IsSpace(summary[|summary| - 1])
    requires raw == configPhrase + " for " + t.entries[k].meeting.summary
    ensures var phrase := Lower(configPhrase);
      var r := ClassifyAsWritten(raw, true, phrase);
      && r == Confirmation(Lower(t.entries[k].meeting.summary))
      && ConfirmResult(t, Strip(Lower(r.meetingName))).Some?
      && StartsWith(ConfirmationReply(phrase, r.meetingName, ConfirmResult(t, Strip(Lower(r.meetingName)))),
                    ConfirmedOpening)
  {
    var summary := t.entries[k].meeting.summary;
    PingReplyReads(configPhrase, summary, raw);
    var name := Lower(summary);
    NameStripped(summary);
    LowerTwice(summary);
    PingingConfirmable(t, k);
    ConfirmedSummaryTruthy(t, name);
    ConfirmationReplySpec(Lower(configPhrase), name, ConfirmResult(t, name));
  }

  /** A PINGING entry's own lowered summary finds a meeting to confirm. */
  lemma PingingConfirmable(t: Table, k: string)
    requires WellFormed(t) && k in t.entries && t.entries[k].status == Pinging
    ensures ConfirmResult(t, Lower(t.entries[k].meeting.summary)).Some?
  {
    var name := Lower(t.entries[k].meeting.summary);
    assert OccursAt(name, name, 0);
    assert SummaryContains(t.entries[k], name);
    ConfirmSpec(t, name);
  }

  /** For a non-empty name, _handle_confirmation's truthiness test is the
      same as "some entry was confirmed": a summary that contains a
      non-empty fragment is not empty. */
  lemma ConfirmedSummaryTruthy(t: Table, fragment: string)
    requires WellFormed(t) && fragment != []
    ensures IsTruthy(ConfirmResult(t, fragment)) <==> ConfirmResult(t, fragment).Some?
  {
    if FirstMatch(t, fragment).Some? {
      var k := FirstMatch(t, fragment).value;
      ConfirmSpec(t, fragment);
      ConfirmEffect(t, fragment, fragment);
      assert |Lower(t.entries[k].meeting.summary)| >= |fragment|;
    } else {
      ConfirmEffect(t, fragment, fragment);
    }
  }

  // ---------------------------------------------------------------------
  // Fetching

  /** get_upcoming_meetings: the request, then the parsing. */
  method FetchUpcoming(config: UserConfig, now: int, s: Settings, fetch: Fetcher)
    returns (r: Result<seq<Meeting>>)
    ensures r == UserFetch(config, now, s, fetch)
  {
    var events := fetch(config, UpcomingWindow(now, s.lookaheadMinutes));
    if events.Err? {
      return Err(events.error);
    }
    r := GetUpcomingMeetings(events.value, FiltersOf(s));
  }

  /** get_meetings_for_date: the day's window, the request, then the
      parsing. */
  method FetchDay(config: UserConfig, t: LocalDateTime, fetch: Fetcher, f: Filters)
    returns (r: Result<seq<DigestEntry>>)
    requires ValidDate(t.date)
    ensures r == DayEntries(config, t, fetch, f)
  {
    var q := DayWindow(t);
    if q.Err? {
      return Err(q.error);
    }
    var events := fetch(config, q.value);
    if events.Err? {
      return Err(events.error);
    }
    r := GetMeetingsForDate(events.value, f);
  }

  // ---------------------------------------------------------------------
  // The scheduler objects

  /** send_digest, when get_meetings_for_date returned; an exception from
      either ends the attempt without a post. */
  method SendDayDigest(slack: SlackClient, userId: string, header: string, entries: Result<seq<DigestEntry>>,
                       directory: map<string, string>)
    requires slack.Valid()
    modifies slack`dmChannels, slack`openedFor, slack`outbox
    ensures slack.Valid()
    ensures slack.outbox == old(slack.outbox) + DigestPost(old(slack.dmChannels), directory, userId, header, entries)
    ensures CacheGrows(old(slack.dmChannels), slack.dmChannels, directory)
  {
    CacheAfterGrows(slack.dmChannels, directory, userId);
    if entries.Ok? {
      var _ := slack.SendDigest(userId, header, entries.value, "", "", directory);
    }
  }

  /** get_meetings_for_date for today, then send_digest. */
  method TodayDigest(slack: SlackClient, config: UserConfig, local: LocalDateTime, fetch: Fetcher, f: Filters,
                     directory: map<string, string>)
    requires slack.Valid() && ValidLocal(local)
    modifies slack`dmChannels, slack`openedFor, slack`outbox
    ensures slack.Valid()
    ensures slack.outbox == old(slack.outbox) + TodayPosts(config, local, fetch, f, old(slack.dmChannels), directory)
    ensures CacheGrows(old(slack.dmChannels), slack.dmChannels, directory)
  {
    var meetings := FetchDay(config, local, fetch, f);
    SendDayDigest(slack, config.slackUserId, TodayHeader(local.date), meetings, directory);
  }

  /** timedelta(days=1), get_meetings_for_date for that day, then
      send_digest; forming the day after 9999-12-31 raises before anything
      is fetched. */
  method TomorrowDigest(slack: SlackClient, config: UserConfig, local: LocalDateTime, fetch: Fetcher, f: Filters,
                        directory: map<string, string>)
    requires slack.Valid() && ValidLocal(local)
    modifies slack`dmChannels, slack`openedFor, slack`outbox
    ensures slack.Valid()
    ensures slack.outbox == old(slack.outbox) + TomorrowPosts(config, local, fetch, f, old(slack.dmChannels), directory)
    ensures CacheGrows(old(slack.dmChannels), slack.dmChannels, directory)
  {
    CacheAfterGrows(slack.dmChannels, directory, config.slackUserId);
    var tomorrow := Tomorrow(local);
    if tomorrow.Some? {
      var meetings := FetchDay(config, tomorrow.value, fetch, f);
      SendDayDigest(slack, config.slackUserId, TomorrowHeader(tomorrow.value.date), meetings, directory);
    }
  }

  /** The morning half of _check_digests for one user. */
  method MorningDigest(state: UserState, slack: SlackClient, f: Filters, local: LocalDateTime, fetch: Fetcher,
                       directory: map<string, string>)
    requires slack.Valid() && ValidLocal(local)
    modifies state`sentDigests, slack`dmChannels, slack`openedFor, slack`outbox
    ensures slack.Valid()
    ensures state.sentDigests == MorningSent(old(state.sentDigests), local)
    ensures slack.outbox == old(slack.outbox) + MorningPosts(old(state.sentDigests), local, state.config, fetch, f,
                                                             old(slack.dmChannels), directory)
    ensures CacheGrows(old(slack.dmChannels), slack.dmChannels, directory)
    ensures !MorningFires(old(state.sentDigests), local) ==> slack.dmChannels == old(slack.dmChannels)
  {
    var todayKey := MorningKey(local.date);
    var isMorningWindow := local.hour == MorningDigestHour && local.minute < 2;
    if isMorningWindow && todayKey !in state.sentDigests {
      state.sentDigests := state.sentDigests + {todayKey};
      TodayDigest(slack, state.config, local, fetch, f, directory);
    }
  }

  /** The evening half of _check_digests for one user; the day after
      9999-12-31 cannot be formed, and then nothing is fetched. */
  method EveningDigest(state: UserState, slack: SlackClient, f: Filters, local: LocalDateTime, fetch: Fetcher,
                       directory: map<string, string>)
    requires slack.Valid() && ValidLocal(local)
    modifies state`sentDigests, slack`dmChannels, slack`openedFor, slack`outbox
    ensures slack.Valid()
    ensures state.sentDigests == EveningSent(old(state.sentDigests), local)
    ensures slack.outbox == old(slack.outbox) + EveningPosts(old(state.sentDigests), local, state.config, fetch, f,
                                                             old(slack.dmChannels), directory)
    ensures CacheGrows(old(slack.dmChannels), slack.dmChannels, directory)
  {
    var tonightKey := EveningKey(local.date);
    var isEveningWindow := local.hour == EveningDigestHour && local.minute < 2;
    if isEveningWindow && tonightKey !in state.sentDigests {
      state.sentDigests := state.sentDigests + {tonightKey};
      TomorrowDigest(slack, state.config, local, fetch, f, directory);
    }
  }

  /** The evening half reads the cache the morning half left: that cache is
      the old one unless the morning digest fired, and then the evening one
      does not. */
  lemma DigestPostsSplit(sent: set<string>, t: LocalDateTime, config: UserConfig, fetch: Fetcher, f: Filters,
                         cache: map<string, string>, cache1: map<string, string>, directory: map<string, string>)
    requires ValidLocal(t)
    requires !MorningFires(sent, t) ==> cache1 == cache
    ensures DigestPosts(sent, t, config, fetch, f, cache, directory) ==
              MorningPosts(sent, t, config, fetch, f, cache, directory)
              + EveningPosts(MorningSent(sent, t), t, config, fetch, f, cache1, directory)
  {
    if MorningFires(sent, t) {
      assert !EveningFires(MorningSent(sent, t), t);
    }
  }

  /** _check_digests for one user: the morning half, then the evening half. */
  method DigestCheck(state: UserState, slack: SlackClient, f: Filters, local: LocalDateTime, fetch: Fetcher,
                     directory: map<string, string>)
    requires slack.Valid() && ValidLocal(local)
    modifies state`sentDigests, slack`dmChannels, slack`openedFor, slack`outbox
    ensures slack.Valid()
    ensures state.sentDigests == StepSent(old(state.sentDigests), local)
    ensures slack.outbox == old(slack.outbox) + DigestPosts(old(state.sentDigests), local, state.config, fetch, f,
                                                            old(slack.dmChannels), directory)
    ensures CacheGrows(old(slack.dmChannels), slack.dmChannels, directory)
  {
    ghost var sent, cache := state.sentDigests, slack.dmChannels;
    MorningDigest(state, slack, f, local, fetch, directory);
    ghost var cache1 := slack.dmChannels;
    EveningDigest(state, slack, f, local, fetch, directory);
    CacheGrowsTrans(cache, cache1, slack.dmChannels, directory);
    DigestPostsSplit(sent, local, state.config, fetch, f, cache, cache1, directory);
  }

  /** The channel a lookup gives, "" when there is none. */
  function ChannelOf(cache: map<string, string>, directory: map<string, string>, userId: string): string {
    var c := ChannelLookup(cache, directory, userId);
    if c.Ok? then c.value else ""
  }

  /** What the reminder loop has done after `j` rounds over `due`, starting
      from table `t`, Slack cache `cache` and outbox `outbox`. */
  ghost predicate PingProgress(tracker: MeetingTracker, slack: SlackClient, t: Table, due: seq<string>, j: int,
                               now: int, userId: string, phrase: string, directory: map<string, string>,
                               cache: map<string, string>, outbox: seq<Post>)
    reads tracker, slack
  {
    && 0 <= j <= |due| && (forall k | k in due :: k in t.entries)
    && tracker.Valid() && slack.Valid()
    && tracker.View() == MarkAll(t, due[..j], now)
    && slack.dmChannels == (if j == 0 then cache else CacheAfter(cache, directory, userId))
    && (j > 0 ==> ChannelLookup(cache, directory, userId).Ok?)
    && slack.outbox == outbox + PingPosts(t, due[..j], now, phrase, ChannelOf(cache, directory, userId))
  }

  /** What one more round of the reminder loop adds, stated on values: the
      lookup and the cache as the round finds them, the posts and the
      marks for `due[..j + 1]`. */
  lemma PingRoundStep(t: Table, due: seq<string>, j: int, now: int, userId: string, phrase: string,
                      directory: map<string, string>, cache: map<string, string>, outbox: seq<Post>)
    requires WellFormed(t) && 0 <= j < |due| && (forall k | k in due :: k in t.entries)
    requires j > 0 ==> ChannelLookup(cache, directory, userId).Ok?
    ensures var c := if j == 0 then cache else CacheAfter(cache, directory, userId);
      && ChannelLookup(c, directory, userId) == ChannelLookup(cache, directory, userId)
      && CacheAfter(c, directory, userId) == CacheAfter(cache, directory, userId)
    ensures t.entries[due[j]].meeting.eventId == due[j]
    ensures MarkAll(t, due[..j + 1], now) == MarkPingedTable(MarkAll(t, due[..j], now), due[j], now)
    ensures var chan := ChannelOf(cache, directory, userId);
      outbox + PingPosts(t, due[..j + 1], now, phrase, chan)
        == (outbox + PingPosts(t, due[..j], now, phrase, chan)) + [PingPost(t.entries[due[j]], now, phrase, chan)]
  {
    ChannelStable(cache, directory, directory, userId);
    MarkAllStep(t, due, j, now);
    PingPostsStep(t, due, j, now, phrase, ChannelOf(cache, directory, userId));
  }

  /** One round of the reminder loop: send_ping, then mark_pinged. */
  method PingNext(tracker: MeetingTracker, slack: SlackClient, userId: string, phrase: string, s: PingState,
                  now: int, directory: map<string, string>, ghost t: Table, ghost due: seq<string>, ghost j: int,
                  ghost cache: map<string, string>, ghost outbox: seq<Post>)
    returns (isSent: bool)
    requires PingProgress(tracker, slack, t, due, j, now, userId, phrase, directory, cache, outbox)
    requires j < |due| && WellFormed(t) && s == t.entries[due[j]]
    modifies tracker`tracked, slack`dmChannels, slack`openedFor, slack`outbox
    ensures isSent == ChannelLookup(cache, directory, userId).Ok?
    ensures isSent ==> PingProgress(tracker, slack, t, due, j + 1, now, userId, phrase, directory, cache, outbox)
    ensures !isSent ==> j == 0 && PingProgress(tracker, slack, t, due, 0, now, userId, phrase, directory, cache, outbox)
  {
    PingRoundStep(t, due, j, now, userId, phrase, directory, cache, outbox);
    var minutes := MinutesUntil(s.meeting.startTime, now);
    isSent := slack.SendPing(userId, s.meeting.summary, minutes, s.pingCount + 1, phrase, directory);
    if !isSent {
      return;
    }
    tracker.MarkPinged(s.meeting.eventId, now);
  }

  /** The loop of _tick over get_meetings_to_ping's result. The first failed
      send raises, which ends the loop with nothing marked; once one send
      succeeded the channel is cached and every later one succeeds. */
  method PingAll(tracker: MeetingTracker, slack: SlackClient, userId: string, phrase: string,
                 toPing: seq<PingState>, ghost due: seq<string>, now: int, directory: map<string, string>)
    returns (isDone: bool)
    requires tracker.Valid() && slack.Valid()
    requires |toPing| == |due|
    requires forall n | 0 <= n < |due| :: due[n] in tracker.tracked && toPing[n] == tracker.tracked[due[n]]
    modifies tracker`tracked, slack`dmChannels, slack`openedFor, slack`outbox
    ensures tracker.Valid() && slack.Valid()
    ensures isDone == (due == [] || Reachable(old(slack.dmChannels), directory, userId))
    ensures tracker.View() == if isDone then MarkAll(old(tracker.View()), due, now) else old(tracker.View())
    ensures slack.outbox == old(slack.outbox) +
      if isDone && due != [] then
        PingPosts(old(tracker.View()), due, now, phrase, ChannelLookup(old(slack.dmChannels), directory, userId).value)
      else []
    ensures CacheGrows(old(slack.dmChannels), slack.dmChannels, directory)
  {
    ghost var t := tracker.View();
    ghost var cache := slack.dmChannels;
    CacheAfterGrows(cache, directory, userId);
    isDone := PingRounds(tracker, slack, userId, phrase, toPing, due, now, directory, t, cache, slack.outbox);
    assert due[..|due|] == due && due[..0] == [];
  }

  /** The rounds of the reminder loop, from the first. */
  method PingRounds(tracker: MeetingTracker, slack: SlackClient, userId: string, phrase: string,
                    toPing: seq<PingState>, ghost due: seq<string>, now: int, directory: map<string, string>,
                    ghost t: Table, ghost cache: map<string, string>, ghost outbox: seq<Post>)
    returns (isDone: bool)
    requires PingProgress(tracker, slack, t, due, 0, now, userId, phrase, directory, cache, outbox)
    requires WellFormed(t) && |toPing| == |due|
    requires forall n | 0 <= n < |due| :: toPing[n] == t.entries[due[n]]
    modifies tracker`tracked, slack`dmChannels, slack`openedFor, slack`outbox
    ensures isDone ==> PingProgress(tracker, slack, t, due, |due|, now, userId, phrase, directory, cache, outbox)
    ensures !isDone ==> && due != [] && ChannelLookup(cache, directory, userId).Err?
                        && PingProgress(tracker, slack, t, due, 0, now, userId, phrase, directory, cache, outbox)
  {
    var j := 0;
    while j < |toPing|
      invariant PingProgress(tracker, slack, t, due, j, now, userId, phrase, directory, cache, outbox)
    {
      var isSent := PingNext(tracker, slack, userId, phrase, toPing[j], now, directory, t, due, j, cache, outbox);
      if !isSent {
        return false;
      }
      j := j + 1;
    }
    return true;
  }

  /** The reminders, then cleanup_expired once every send went through. */
  method PingAndClean(tracker: MeetingTracker, slack: SlackClient, userId: string, phrase: string,
                      toPing: seq<PingState>, ghost due: seq<string>, now: int, directory: map<string, string>)
    requires tracker.Valid() && slack.Valid()
    requires |toPing| == |due|
    requires forall n | 0 <= n < |due| :: due[n] in tracker.tracked && toPing[n] == tracker.tracked[due[n]]
    modifies tracker, slack`dmChannels, slack`openedFor, slack`outbox
    ensures tracker.Valid() && slack.Valid()
    ensures tracker.View() ==
              if due != [] && !Reachable(old(slack.dmChannels), directory, userId) then old(tracker.View())
              else CleanupTable(MarkAll(old(tracker.View()), due, now), now)
    ensures slack.outbox == old(slack.outbox) +
      if Reachable(old(slack.dmChannels), directory, userId) && due != [] then
        PingPosts(old(tracker.View()), due, now, phrase, ChannelLookup(old(slack.dmChannels), directory, userId).value)
      else []
    ensures CacheGrows(old(slack.dmChannels), slack.dmChannels, directory)
  {
    var isDone := PingAll(tracker, slack, userId, phrase, toPing, due, now, directory);
    if isDone {
      tracker.CleanupExpired(now);
    }
  }

  /** The body of _tick's try block after the fetch: update_meetings,
      get_meetings_to_ping, the reminders, cleanup_expired. */
  method TickSteps(tracker: MeetingTracker, slack: SlackClient, config: UserConfig, meetings: seq<Meeting>,
                   now: int, directory: map<string, string>)
    requires tracker.Valid() && slack.Valid()
    modifies tracker, slack`dmChannels, slack`openedFor, slack`outbox
    ensures tracker.Valid() && slack.Valid()
    ensures var lead, interval := tracker.LeadSeconds(), tracker.pingIntervalSeconds;
      && tracker.View() == TickTable(old(tracker.View()), Ok(meetings), now, lead, interval,
                                     Reachable(old(slack.dmChannels), directory, config.slackUserId))
      && slack.outbox == old(slack.outbox) +
           TickPosts(old(tracker.View()), Ok(meetings), now, lead, interval, config.confirmationPhrase,
                     ChannelLookup(old(slack.dmChannels), directory, config.slackUserId))
    ensures CacheGrows(old(slack.dmChannels), slack.dmChannels, directory)
  {
    var lead, interval := tracker.LeadSeconds(), tracker.pingIntervalSeconds;
    ghost var t := tracker.View();
    tracker.UpdateMeetings(meetings, now);
    ghost var merged := tracker.View();
    var toPing := tracker.GetMeetingsToPing(now);
    ghost var due := DueKeys(merged, now, lead, interval);
    PingAndClean(tracker, slack, config.slackUserId, config.confirmationPhrase, toPing, due, now, directory);
  }

  /** What say() sends back for a message read as `route`, given what the
      confirmation handler returned: the usage hint, the confirmation
      reply, or nothing. */
  function Reply(route: Inbound, phrase: string, result: Option<string>): Option<string> {
    match route
    case UsageHint => Some(UsageText(phrase))
    case Confirmation(meetingName) => Some(ConfirmationReply(phrase, meetingName, result))
    case _ => None
  }

  /** One user's configuration, reminder tracker and recorded digests. */
  class UserState {
    const config: UserConfig
    const tracker: MeetingTracker
    var sentDigests: set<string>

    constructor (config: UserConfig, tracker: MeetingTracker)
      ensures this.config == config && this.tracker == tracker && sentDigests == {}
    {
      this.config := config;
      this.tracker := tracker;
      sentDigests := {};
    }
  }

  /** The position of the first state whose user has this Slack id: the
      user send_today_digest and send_tomorrow_digest serve. */
  function FirstUser(users: seq<UserState>, userId: string): (r: Option<nat>)
    ensures r.Some? ==> r.value < |users| && users[r.value].config.slackUserId == userId
    ensures r.Some? ==> forall k | 0 <= k < r.value :: users[k].config.slackUserId != userId
    ensures r.None? <==> forall k | 0 <= k < |users| :: users[k].config.slackUserId != userId
    decreases |users|
  {
    if users == [] then None
    else if users[0].config.slackUserId == userId then Some(0)
    else
      match FirstUser(users[1..], userId)
      case None => None
      case Some(i) => Some(i + 1)
  }

  class Scheduler {
    const settings: Settings
    const slack: SlackClient
    var users: seq<UserState>
    /** The position of each user's state and tracker in `users`; that each
        has one position is what keeps them apart. */
    ghost var stateIndex: map<UserState, nat>
    ghost var trackerIndex: map<MeetingTracker, nat>

    /** Every state ever enrolled; Valid keeps each user's state in it. */
    ghost function States(): set<UserState>
      reads this
    {
      stateIndex.Keys
    }

    /** Every tracker ever enrolled; Valid keeps each user's tracker in it. */
    ghost function Trackers(): set<MeetingTracker>
      reads this
    {
      trackerIndex.Keys
    }

    /** Each user has a state and a tracker of their own, built from the
        settings, and the Slack side's handler for a user is the position of
        that user's state. */
    ghost predicate Valid()
      reads this, slack, Trackers()
    {
      slack.Valid() && UsersValid() && HandlersValid()
    }

    /** Each user's state and tracker sit at their own position. */
    ghost predicate UsersValid()
      reads this, Trackers()
    {
      forall i | 0 <= i < |users| ::
        && users[i] in stateIndex && stateIndex[users[i]] == i
        && users[i].tracker in trackerIndex && trackerIndex[users[i].tracker] == i
        && users[i].tracker.Valid()
        && users[i].tracker.leadTimeMinutes == settings.pingLeadTimeMinutes
        && users[i].tracker.pingIntervalSeconds == settings.pingIntervalSeconds
    }

    /** Each registered handler is the position of a state of that user. */
    ghost predicate HandlersValid()
      reads this, slack`handlers
    {
      forall u | u in slack.handlers ::
        slack.handlers[u] < |users| && users[slack.handlers[u]].config.slackUserId == u
    }

    constructor (settings: Settings)
      ensures Valid()
      ensures this.settings == settings && users == [] && fresh(slack)
      ensures slack.phrases == map[] && !slack.isDigestWired && slack.dmChannels == map[] && slack.outbox == []
    {
      this.settings := settings;
      slack := new SlackClient();
      users := [];
      stateIndex := map[];
      trackerIndex := map[];
    }

    /** One pass of run's registration loop: a fresh tracker and state are
        appended, and the user's phrase and handler are registered. */
    method AddUser(config: UserConfig)
      requires Valid()
      modifies this`users, this`stateIndex, this`trackerIndex, slack`phrases, slack`handlers
      ensures Valid()
      ensures |users| == |old(users)| + 1 && users[..|old(users)|] == old(users)
      ensures var s := users[|users| - 1];
        && fresh(s) && fresh(s.tracker) && s.config == config && s.sentDigests == {}
        && s.tracker.View() == Table([], map[])
      ensures slack.phrases == old(slack.phrases)[config.slackUserId := Lower(config.confirmationPhrase)]
      ensures slack.handlers == old(slack.handlers)[config.slackUserId := |old(users)|]
    {
      var tracker := new MeetingTracker(settings);
      var state := new UserState(config, tracker);
      Enroll(state);
      slack.RegisterUser(config.slackUserId, config.confirmationPhrase, |users| - 1);
      forall u | u in slack.handlers
        ensures slack.handlers[u] < |users| && users[slack.handlers[u]].config.slackUserId == u
      {
        if u != config.slackUserId {
          assert u in old(slack.handlers);
        }
      }
    }

    /** Appends a new user's state to the list. */
    method Enroll(state: UserState)
      requires UsersValid() && HandlersValid()
      requires state !in stateIndex && state.tracker !in trackerIndex && state.tracker.Valid()
      requires state.tracker.leadTimeMinutes == settings.pingLeadTimeMinutes
      requires state.tracker.pingIntervalSeconds == settings.pingIntervalSeconds
      modifies this`users, this`stateIndex, this`trackerIndex
      ensures UsersValid() && HandlersValid()
      ensures users == old(users) + [state]
    {
      ghost var before := users;
      stateIndex := stateIndex[state := |users|];
      trackerIndex := trackerIndex[state.tracker := |users|];
      users := users + [state];
      forall k | 0 <= k < |users|
        ensures && users[k] in stateIndex && stateIndex[users[k]] == k
                && users[k].tracker in trackerIndex && trackerIndex[users[k].tracker] == k
                && users[k].tracker.Valid()
                && users[k].tracker.leadTimeMinutes == settings.pingLeadTimeMinutes
                && users[k].tracker.pingIntervalSeconds == settings.pingIntervalSeconds
      {
        if k < |before| {
          assert users[k] == before[k];
        }
      }
    }

    /** set_digest_handlers, once every user is registered. */
    method WireDigests()
      requires Valid()
      modifies slack`isDigestWired
      ensures Valid() && slack.isDigestWired
    {
      slack.SetDigestHandlers();
    }

    /** _handle_confirmation */
    method HandleConfirmation(i: nat, meetingName: string) returns (r: Option<string>)
      requires Valid() && i < |users|
      modifies users[i].tracker
      ensures Valid()
      ensures users[i].tracker.View() == ConfirmTable(old(users[i].tracker.View()), Strip(Lower(meetingName)))
      ensures r == ConfirmResult(old(users[i].tracker.View()), Strip(Lower(meetingName)))
    {
      r := users[i].tracker.ConfirmByName(meetingName);
    }

    /** _check_digests: each digest key is recorded before the fetch, so a
        digest whose fetch or send fails is not retried. */
    method CheckDigests(i: nat, local: LocalDateTime, fetch: Fetcher, directory: map<string, string>)
      requires Valid() && i < |users| && ValidLocal(local)
      modifies users[i], slack`dmChannels, slack`openedFor, slack`outbox
      ensures Valid()
      ensures users[i].sentDigests == StepSent(old(users[i].sentDigests), local)
      ensures slack.outbox == old(slack.outbox) + DigestPosts(old(users[i].sentDigests), local, users[i].config,
                                                              fetch, FiltersOf(settings), old(slack.dmChannels), directory)
      ensures CacheGrows(old(slack.dmChannels), slack.dmChannels, directory)
    {
      DigestCheck(users[i], slack, FiltersOf(settings), local, fetch, directory);
    }

    /** The reminder part of _tick for one user. A failed fetch changes
        nothing; a failed send raises after the scan, so the clean-up does
        not run. */
    method TickPings(i: nat, now: int, fetch: Fetcher, directory: map<string, string>)
      requires Valid() && i < |users|
      modifies users[i].tracker, slack`dmChannels, slack`openedFor, slack`outbox
      ensures Valid()
      ensures var fetched := UserFetch(users[i].config, now, settings, fetch);
        var lead := settings.pingLeadTimeMinutes * 60;
        && users[i].tracker.View() ==
             TickTable(old(users[i].tracker.View()), fetched, now, lead, settings.pingIntervalSeconds,
                       Reachable(old(slack.dmChannels), directory, users[i].config.slackUserId))
        && slack.outbox == old(slack.outbox) +
             TickPosts(old(users[i].tracker.View()), fetched, now, lead, settings.pingIntervalSeconds,
                       users[i].config.confirmationPhrase,
                       ChannelLookup(old(slack.dmChannels), directory, users[i].config.slackUserId))
      ensures CacheGrows(old(slack.dmChannels), slack.dmChannels, directory)
    {
      var state := users[i];
      var tracker := state.tracker;
      ghost var t := tracker.View();
      var fetched := FetchUpcoming(state.config, now, settings, fetch);
      if fetched.Err? {
        return;
      }
      TickSteps(tracker, slack, state.config, fetched.value, now, directory);
    }

    /** The loop send_today_digest and send_tomorrow_digest begin with. */
    method FindUser(userId: string) returns (r: Option<nat>)
      ensures r == FirstUser(users, userId)
    {
      var i := 0;
      while i < |users|
        invariant 0 <= i <= |users|
        invariant forall k | 0 <= k < i :: users[k].config.slackUserId != userId
      {
        if users[i].config.slackUserId == userId {
          return Some(i);
        }
        i := i + 1;
      }
      return None;
    }

    /** What send_today_digest posts for `userId`. */
    function TodayDigestFor(userId: string, local: LocalDateTime, fetch: Fetcher, cache: map<string, string>,
                            directory: map<string, string>): seq<Post>
      requires ValidLocal(local)
      reads this
    {
      match FirstUser(users, userId)
      case None => []
      case Some(i) => TodayPosts(users[i].config, local, fetch, FiltersOf(settings), cache, directory)
    }

    /** What send_tomorrow_digest posts for `userId`. */
    function TomorrowDigestFor(userId: string, local: LocalDateTime, fetch: Fetcher, cache: map<string, string>,
                               directory: map<string, string>): seq<Post>
      requires ValidLocal(local)
      reads this
    {
      match FirstUser(users, userId)
      case None => []
      case Some(i) => TomorrowPosts(users[i].config, local, fetch, FiltersOf(settings), cache, directory)
    }

    /** send_today_digest: the first state with this id gets today's digest;
        an unknown id gets nothing. */
    method SendTodayDigest(userId: string, local: LocalDateTime, fetch: Fetcher, directory: map<string, string>)
      requires Valid() && ValidLocal(local)
      modifies slack`dmChannels, slack`openedFor, slack`outbox
      ensures Valid()
      ensures slack.outbox == old(slack.outbox) + TodayDigestFor(userId, local, fetch, old(slack.dmChannels), directory)
      ensures CacheGrows(old(slack.dmChannels), slack.dmChannels, directory)
    {
      var r := FindUser(userId);
      if r.None? {
        return;
      }
      TodayDigest(slack, users[r.value].config, local, fetch, FiltersOf(settings), directory);
    }

    /** send_tomorrow_digest. */
    method SendTomorrowDigest(userId: string, local: LocalDateTime, fetch: Fetcher, directory: map<string, string>)
      requires Valid() && ValidLocal(local)
      modifies slack`dmChannels, slack`openedFor, slack`outbox
      ensures Valid()
      ensures slack.outbox == old(slack.outbox) + TomorrowDigestFor(userId, local, fetch, old(slack.dmChannels), directory)
      ensures CacheGrows(old(slack.dmChannels), slack.dmChannels, directory)
    {
      var r := FindUser(userId);
      if r.None? {
        return;
      }
      TomorrowDigest(slack, users[r.value].config, local, fetch, FiltersOf(settings), directory);
    }

    /** What a digest command posts once the handlers are set. */
    function CommandPosts(route: Inbound, user: string, local: LocalDateTime, fetch: Fetcher,
                          cache: map<string, string>, directory: map<string, string>): seq<Post>
      requires ValidLocal(local)
      reads this
    {
      match route
      case TodayCommand => TodayDigestFor(user, local, fetch, cache, directory)
      case TomorrowCommand => TomorrowDigestFor(user, local, fetch, cache, directory)
      case _ => []
    }

    /** What handle_message does once it has read a message from `user`
        as `route`: the commands run the digest handlers once they are set,
        the bare command gets the usage hint, and a confirmation goes to the
        user's tracker and is answered. Only a confirmation touches a
        tracker, and only the sender's. */
    method Dispatch(user: string, route: Inbound, local: LocalDateTime, fetch: Fetcher,
                    directory: map<string, string>)
      returns (reply: Option<string>)
      requires Valid() && ValidLocal(local)
      requires route != Ignored ==> user in slack.handlers && slack.handlers[user] < |users|
      modifies slack`dmChannels, slack`openedFor, slack`outbox
      modifies if route.Confirmation? then {users[slack.handlers[user]].tracker} else {}
      ensures Valid()
      ensures route.Confirmation? ==>
                var tracker := users[slack.handlers[user]].tracker;
                tracker.View() == ConfirmTable(old(tracker.View()), Strip(Lower(route.meetingName)))
      ensures reply == Reply(route, PhraseOf(slack.phrases, user),
                             if route.Confirmation?
                             then ConfirmResult(old(users[slack.handlers[user]].tracker.View()), Strip(Lower(route.meetingName)))
                             else None)
      ensures route.Confirmation? ==> slack.outbox == old(slack.outbox) && slack.dmChannels == old(slack.dmChannels)
      ensures !route.Confirmation? ==>
                && slack.outbox == old(slack.outbox) +
                     (if slack.isDigestWired then CommandPosts(route, user, local, fetch, old(slack.dmChannels), directory)
                      else [])
                && CacheGrows(old(slack.dmChannels), slack.dmChannels, directory)
    {
      var result: Option<string> := None;
      if route.Confirmation? {
        result := HandleConfirmation(slack.handlers[user], route.meetingName);
      } else {
        RunCommand(user, route, local, fetch, directory);
      }
      reply := Reply(route, PhraseOf(slack.phrases, user), result);
    }

    /** The digest commands of handle_message, which run only once the
        handlers are set. */
    method RunCommand(user: string, route: Inbound, local: LocalDateTime, fetch: Fetcher,
                      directory: map<string, string>)
      requires Valid() && ValidLocal(local)
      modifies slack`dmChannels, slack`openedFor, slack`outbox
      ensures Valid()
      ensures slack.outbox == old(slack.outbox) +
                if slack.isDigestWired then CommandPosts(route, user, local, fetch, old(slack.dmChannels), directory)
                else []
      ensures CacheGrows(old(slack.dmChannels), slack.dmChannels, directory)
    {
      if route.TodayCommand? && slack.isDigestWired {
        SendTodayDigest(user, local, fetch, directory);
      } else if route.TomorrowCommand? && slack.isDigestWired {
        SendTomorrowDigest(user, local, fetch, directory);
      }
    }

    /** One user's turn in _tick: the digest check, then the reminders.
        `cache0` is the channel cache as the poll began. */
    method TickUser(i: nat, now: int, local: LocalDateTime, fetch: Fetcher, directory: map<string, string>,
                    ghost cache0: map<string, string>)
      requires Valid() && i < |users| && ValidLocal(local)
      requires CacheGrows(cache0, slack.dmChannels, directory)
      modifies users[i], users[i].tracker, slack`dmChannels, slack`openedFor, slack`outbox
      ensures Valid()
      ensures users[i].sentDigests == StepSent(old(users[i].sentDigests), local)
      ensures users[i].tracker.View() ==
                TickTable(old(users[i].tracker.View()), UserFetch(users[i].config, now, settings, fetch), now,
                          settings.pingLeadTimeMinutes * 60, settings.pingIntervalSeconds,
                          Reachable(cache0, directory, users[i].config.slackUserId))
      ensures old(slack.outbox) <= slack.outbox
      ensures CacheGrows(cache0, slack.dmChannels, directory)
      ensures forall k | 0 <= k < |users| && k != i ::
                users[k].sentDigests == old(users[k].sentDigests) && users[k].tracker.View() == old(users[k].tracker.View())
    {
      ghost var cache := slack.dmChannels;
      CheckDigests(i, local, fetch, directory);
      ghost var cache1 := slack.dmChannels;
      TickPings(i, now, fetch, directory);
      CacheGrowsTrans(cache0, cache, cache1, directory);
      CacheGrowsTrans(cache0, cache1, slack.dmChannels, directory);
      CacheGrowsLookup(cache0, cache1, directory, users[i].config.slackUserId);
    }

    /** _tick: for every user in order, the digest check and then the
        reminders; one user's failure does not stop the others. Every user
        is reached through the cache as it was when the poll began, since
        a cached channel never changes. */
    method Tick(now: int, local: LocalDateTime, fetch: Fetcher, directory: map<string, string>)
      requires Valid() && ValidLocal(local)
      modifies slack`dmChannels, slack`openedFor, slack`outbox, States(), Trackers()
      ensures Valid()
      ensures forall i | 0 <= i < |users| ::
                && users[i].sentDigests == StepSent(old(users[i].sentDigests), local)
                && users[i].tracker.View() ==
                  TickTable(old(users[i].tracker.View()), UserFetch(users[i].config, now, settings, fetch), now,
                            settings.pingLeadTimeMinutes * 60, settings.pingIntervalSeconds,
                            Reachable(old(slack.dmChannels), directory, users[i].config.slackUserId))
      ensures old(slack.outbox) <= slack.outbox
      ensures CacheGrows(old(slack.dmChannels), slack.dmChannels, directory)
    {
      var i := 0;
      while i < |users|
        invariant 0 <= i <= |users| && Valid()
        invariant forall k | 0 <= k < i ::
                    && users[k].sentDigests == StepSent(old(users[k].sentDigests), local)
                    && users[k].tracker.View() ==
                      TickTable(old(users[k].tracker.View()), UserFetch(users[k].config, now, settings, fetch), now,
                                settings.pingLeadTimeMinutes * 60, settings.pingIntervalSeconds,
                                Reachable(old(slack.dmChannels), directory, users[k].config.slackUserId))
        invariant forall k | i <= k < |users| ::
                    users[k].sentDigests == old(users[k].sentDigests)
                    && users[k].tracker.View() == old(users[k].tracker.View())
        invariant old(slack.outbox) <= slack.outbox
        invariant CacheGrows(old(slack.dmChannels), slack.dmChannels, directory)
      {
        TickUser(i, now, local, fetch, directory, old(slack.dmChannels));
        i := i + 1;
      }
    }

  }
}
