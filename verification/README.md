# meeting-pinger, modelled in Dafny

meeting-pinger is a Slack bot that watches each registered user's Google
Calendar and keeps sending them direct-message reminders about a meeting
that is about to start, until they reply `<phrase> for <meeting name>`. It
also sends a digest of the day's meetings at 8 am, a digest of tomorrow's
meetings at 10 pm, and either digest on demand when the user writes
`today` or `tomorrow`.

The model covers the following parts.

- **The per-user reminder tracker** (`Tracker`). `MeetingTracker` is a class. Its insertion-ordered dictionary is modelled as a key list `keys` and a map `tracked`, which its methods update in place. Each method is proved against a function on the value `Table(keys, entries)`, and the lemmas about those functions state what `update_meetings`, `get_meetings_to_ping`, `mark_pinged`, `confirm_by_name`, `cleanup_expired` and `active_count` promise.
- **The calendar parsing loops** (`Calendar`). These are the filtering and normalising loops of `get_upcoming_meetings` and `get_meetings_for_date`. Each is a method with loop invariants, proved equal to a recursive function. The function is then characterised as "one record per kept event, in order, or the first error".
- **The Slack side** (`Slack`). It covers:
  - how `handle_message` reads a message;
  - the texts of the reminder, the digest and the confirmation replies;
  - the `SlackClient` object. Its phrase and handler registries, its direct-message channel cache and the messages it has posted (`outbox`) are fields.
- **The scheduler** (`Scheduler`):
  - user registration;
  - the body of `_tick` for every user (digest check, fetch, tracker update, reminders, clean-up);
  - `_check_digests`, `_handle_confirmation`, `send_today_digest` and `send_tomorrow_digest`.

  `Scheduler` and `UserState` are classes. `Tick` is proved to leave each user's tracker as the function `TickTable` says. `TickTable`'s lemmas say:
  - every due meeting was reminded exactly once, with the right ordinal;
  - no meeting is reminded twice within the ping interval;
  - terminal statuses are never left;
  - the table stays well formed.
- **The records** of `models.py` (`Models`). **Calendar dates and `strftime` renderings** (`Dates`). **Python's ASCII `str.lower`/`str.strip` and substring search** (`Text`). Helpers on sequences (`Seqs`). `Option`/`Result` (`Wrappers`).

Time is an explicit parameter. `now` is the poll's instant in whole seconds since the epoch, and `local` is the same instant read on the machine's wall clock. The outside services are parameters as well:
- The calendar API is a `Fetcher`, a function from a user and a query window to either the raw events or an error.
- Slack's `conversations_open` is a `directory` from user id to channel id. A user missing from it makes the call raise.

A raised exception is modelled as its effect: whatever the source would not do after the exception does not happen in the model.

## Model

| member | source | states |
|---|---|---|
| Models.StatusValue | meeting_pinger/models.py:7-11 | every status has a non-empty string value |
| Models.StatusValuesDistinct | meeting_pinger/models.py:7-11 | there are exactly the four statuses, and two statuses have the same value only if they are the same status |
| Models.NewMeeting | meeting_pinger/models.py:14-23 | a Meeting built from its four required fields is not all-day, declined or cancelled and has an empty link |
| Models.NewPingState | meeting_pinger/models.py:26-32 | a fresh reminder record is PENDING, never pinged, with count 0 and not confirmed |
| Models.NewUserConfig | meeting_pinger/models.py:35-41 | a user config built from its two required fields uses the "primary" calendar, the phrase "ok" and an empty name |
| Models.DefaultSettings | meeting_pinger/config.py:26-34 | the default lead time is 5 minutes, the ping interval 60 s, the poll 30 s and the lookahead 15 minutes; the phrase is "ok" and both skip filters are on |
| Dates.NextDayNumber | meeting_pinger/scheduler.py:161 | `+ timedelta(days=1)` gives a valid date exactly one day number later; only 9999-12-31 has no next day |
| Dates.NextDayIsSuccessor | meeting_pinger/scheduler.py:161 | no valid date lies strictly between a date and its next day |
| Dates.DateTextInjective | meeting_pinger/scheduler.py:136-137 | two different dates never render alike under `%Y-%m-%d` |
| Dates.Weekday | meeting_pinger/scheduler.py:149 | the weekday index that `%A` names is below 7 |
| Dates.NextDayWeekday | meeting_pinger/scheduler.py:165 | the weekday named in tomorrow's header is today's weekday plus one, cyclically |
| Dates.Hour12 | meeting_pinger/calendar_client.py:205 | the `%-I` hour is between 1 and 12 and agrees with the 24-hour clock modulo 12 |
| Dates.ClockTextInjective | meeting_pinger/calendar_client.py:205-206 | two clock readings with a different hour or minute never render alike under `%-I:%M %p` |
| Tracker.MergeSpec | meeting_pinger/meeting_tracker.py:16-38 | update_meetings removes nothing and extends the order. The ids become the old ids plus the snapshot's ids. A new id gets a PENDING record of its first snapshot meeting, appended in snapshot order. An old entry keeps its meeting, counters and flag, and its status changes only by the expiry rule. |
| Tracker.AddNewShape | meeting_pinger/meeting_tracker.py:24-26 | the first pass keeps every old entry and adds exactly the untracked snapshot ids |
| Tracker.AddNewOrder | meeting_pinger/meeting_tracker.py:24-26 | new ids are appended in the order of their first appearance in the snapshot |
| Tracker.AddNewFresh | meeting_pinger/meeting_tracker.py:24-26 | a new entry is a fresh record of the first snapshot meeting with that id |
| Tracker.ExpiryRule | meeting_pinger/meeting_tracker.py:32-35 | an entry becomes EXPIRED exactly when it is missing from the snapshot, its meeting has started, and it was PENDING or PINGING |
| Tracker.ExpireSettles | meeting_pinger/meeting_tracker.py:32-35 | running the expiry pass twice has the same effect as running it once |
| Tracker.MergeIdempotent | meeting_pinger/meeting_tracker.py:16-38 | merging the same snapshot again at the same instant changes nothing |
| Tracker.SelectionSpec | meeting_pinger/meeting_tracker.py:47-69 | get_meetings_to_ping returns exactly the non-terminal entries that are in the ping window or grace period and not rate-limited, in table order and once each, already PINGING |
| Tracker.AdvanceSpec | meeting_pinger/meeting_tracker.py:47-62 | the scan makes every in-window, non-terminal entry PINGING even when it is rate-limited; it changes no other entry and no field but the status |
| Tracker.GraceSubsumed | meeting_pinger/meeting_tracker.py:51-59 | with a non-negative lead time the ten-minute grace clause adds nothing: every meeting that already started is in the window |
| Tracker.GraceMatters | meeting_pinger/meeting_tracker.py:51-59 | with a negative lead time the grace clause is what keeps a meeting that started under ten minutes ago in the window |
| Tracker.MarkPingedSpec | meeting_pinger/meeting_tracker.py:73-78 | mark_pinged sets a known id's last ping to now and adds one to its count; its status and every other entry are unchanged, and an unknown id changes nothing |
| Tracker.PingingKeysSpec | meeting_pinger/meeting_tracker.py:86-88 | the PINGING list holds exactly the PINGING entries, in table order, once each |
| Tracker.FirstContainingSpec | meeting_pinger/meeting_tracker.py:92-97 | the search picks the first listed entry whose lowered summary contains the fragment, and finds nothing exactly when there is no such entry |
| Tracker.ConfirmSpec | meeting_pinger/meeting_tracker.py:85-99 | the confirmed entry is PINGING, its lowered summary contains the fragment, and no earlier entry is both; there is no result exactly when no PINGING summary contains the fragment |
| Tracker.ConfirmEmptyFragment | meeting_pinger/meeting_tracker.py:85-97 | an empty fragment confirms the first PINGING entry in table order |
| Tracker.ConfirmEffect | meeting_pinger/meeting_tracker.py:92-97 | a confirmation makes only the matched entry CONFIRMED with its flag set, and that entry can never be confirmed again |
| Tracker.PingingSummaries | meeting_pinger/meeting_tracker.py:101-107 | the summaries listed are those of the PINGING entries, one per entry, in table order |
| Tracker.CleanupSpec | meeting_pinger/meeting_tracker.py:109-119 | cleanup_expired removes exactly the entries whose meeting ended more than 30 minutes ago, whatever their status, and keeps the rest in order |
| Tracker.ActiveCountIsCardinality | meeting_pinger/meeting_tracker.py:121-128 | active_count is the number of PENDING or PINGING entries, at most the number tracked |
| Tracker.TerminalIsSink | meeting_pinger/meeting_tracker.py:34-49 | no operation changes the status of a CONFIRMED or EXPIRED entry, and the scan never selects one |
| Tracker.MeetingTracker.constructor | meeting_pinger/meeting_tracker.py:12-14 | a new tracker tracks nothing and takes its lead time and ping interval from the settings |
| Tracker.MeetingTracker.UpdateMeetings | meeting_pinger/meeting_tracker.py:16-38 | the two loops leave the table that MergeSpec describes |
| Tracker.MeetingTracker.ScanEntry | meeting_pinger/meeting_tracker.py:47-69 | one step of the scan advances the entry, and returns it exactly when it is due |
| Tracker.MeetingTracker.GetMeetingsToPing | meeting_pinger/meeting_tracker.py:40-71 | the loop leaves the table that AdvanceSpec describes and returns the PINGING records of the ids SelectionSpec describes, in order |
| Tracker.MeetingTracker.MarkPinged | meeting_pinger/meeting_tracker.py:73-78 | the table becomes the one MarkPingedSpec describes |
| Tracker.MeetingTracker.PingingIds | meeting_pinger/meeting_tracker.py:86-88 | the comprehension returns the PINGING ids in table order |
| Tracker.MeetingTracker.ConfirmByName | meeting_pinger/meeting_tracker.py:80-99 | the name is lowered and stripped, and the table and result are the ones ConfirmSpec describes |
| Tracker.MeetingTracker.GetPingingSummaries | meeting_pinger/meeting_tracker.py:101-107 | one summary per PINGING meeting, in the order meetings were first tracked; every PINGING meeting's summary is listed, and nothing else |
| Tracker.MeetingTracker.StaleIds | meeting_pinger/meeting_tracker.py:111-117 | the ids to remove are the stale ones, in table order |
| Tracker.MeetingTracker.RemoveAll | meeting_pinger/meeting_tracker.py:118-119 | exactly the listed ids are deleted, and the rest keep their order |
| Tracker.MeetingTracker.CleanupExpired | meeting_pinger/meeting_tracker.py:109-119 | the table becomes the one CleanupSpec describes |
| Tracker.MeetingTracker.ActiveCount | meeting_pinger/meeting_tracker.py:121-128 | the count is the number of tracked meetings that are PENDING or PINGING, so never more than the number tracked |
| Calendar.KeptRules | meeting_pinger/calendar_client.py:100-118 | a cancelled event is never kept. An all-day event is dropped exactly when all-day events are skipped. An event the owner declined is dropped exactly when declined events are skipped. |
| Calendar.ToMeetingSpec | meeting_pinger/calendar_client.py:120-141 | the Meeting carries the event's id, its summary or "(No title)", its link or "", and its all-day and declined flags; it is never cancelled. An all-day event spans midnight UTC of its start date to midnight UTC of its end date. A missing time, or a date or dateTime reading out of range, is an error, just as on the digest path. |
| Calendar.ConversionsAgree | meeting_pinger/calendar_client.py:128-129 | both loops parse a timed event's dateTime texts alike, so such an event breaks get_upcoming_meetings exactly when it breaks get_meetings_for_date, with the same error; an all-day event never breaks the digest |
| Calendar.ToDigestEntrySpec | meeting_pinger/calendar_client.py:191-208 | an all-day entry reads "All day" with an empty end and always converts; any other entry shows its start and end clock times |
| Calendar.CollectErrSticks | meeting_pinger/calendar_client.py:98-141 | once an event raises, the rest of the loop does not matter; this holds for both fetch loops, which are the same loop with different conversions |
| Calendar.UpcomingSpec | meeting_pinger/calendar_client.py:98-147 | get_upcoming_meetings succeeds exactly when every kept event converts, and then returns one Meeting per kept event, in input order |
| Calendar.DigestSpec | meeting_pinger/calendar_client.py:169-210 | get_meetings_for_date succeeds exactly when every kept event converts, and then returns one entry per kept event, in input order |
| Calendar.UpcomingWindow | meeting_pinger/calendar_client.py:80-88 | the query runs from now to now plus the lookahead |
| Calendar.DayWindowSpec | meeting_pinger/calendar_client.py:151-159 | the day's query holds exactly the wall-clock readings of that date; it fails only for 9999-12-31 |
| Calendar.FindDeclined | meeting_pinger/calendar_client.py:108-115 | the attendee loop reports a decline exactly when some attendee is the owner and declined |
| Calendar.KeepEvent | meeting_pinger/calendar_client.py:99-118 | the three skips keep an event exactly by the rules KeptRules states |
| Calendar.GetUpcomingMeetings | meeting_pinger/calendar_client.py:96-147 | the loop returns what UpcomingSpec describes |
| Calendar.GetMeetingsForDate | meeting_pinger/calendar_client.py:167-210 | the loop returns what DigestSpec describes |
| Slack.MessageText | meeting_pinger/slack_client.py:54 | the text compared is stripped and lowered, so it has no upper-case letter |
| Slack.UsageHintUnreachable | meeting_pinger/slack_client.py:70-79 | as written, no message ever gets the usage hint |
| Slack.BareCommandExample | meeting_pinger/slack_client.py:70-79 | "ok for" is ignored as written and gets the usage hint once corrected |
| Slack.Classify | meeting_pinger/slack_client.py:53-79 | the corrected reading (see Findings): a message from an unregistered user is ignored |
| Slack.ClassifyCorrection | meeting_pinger/slack_client.py:70-79 | the corrected reading sends the usage hint exactly for the bare `<phrase> for`, and agrees with the code as written on every other message |
| Slack.ConfirmationSpec | meeting_pinger/slack_client.py:57-77 | a message is a confirmation exactly when the user is registered, the message is neither command, and it starts with `<phrase> for `; the name it carries is non-empty, lower-case, stripped and taken from after the prefix |
| Slack.ClassifyIgnoresCase | meeting_pinger/slack_client.py:54 | lowering a message first does not change how it is read, as written or corrected |
| Slack.ClassifyIgnoresPadding | meeting_pinger/slack_client.py:54 | stripping a message first does not change how it is read, as written or corrected |
| Slack.ConfirmationReplySpec | meeting_pinger/slack_client.py:84-90 | a confirmed meeting is named in bold after "Got it. Stopping pings for "; otherwise the reply quotes the unmatched name and repeats the syntax |
| Slack.MinuteWord | meeting_pinger/slack_client.py:126-130 | the unit is " minute" or " minutes", and singular exactly for a count of 1 |
| Slack.TimeTextPhrasing | meeting_pinger/slack_client.py:125-130 | the phrase is "is starting NOW" exactly at zero minutes, starts with "starts in " exactly for a meeting ahead, and starts with "started " and ends with " ago" exactly for one under way |
| Slack.TimeTextCount | meeting_pinger/slack_client.py:125-130 | away from zero the phrase carries the absolute number of minutes, and says " minutes" exactly when that number is not 1 |
| Slack.TimeTextInjective | meeting_pinger/slack_client.py:125-130 | different minute counts are never described alike |
| Slack.PingTextShape | meeting_pinger/slack_client.py:132-136 | the reminder is the opening, the ordinal, then the body |
| Slack.PingTextSpec | meeting_pinger/slack_client.py:132-136 | the reminder opens with its ordinal, and contains the meeting in bold, the time phrase and the exact reply that stops it |
| Slack.PingOrdinalReadback | meeting_pinger/slack_client.py:132-136 | two reminders with different ordinals never read alike |
| Slack.Preamble | meeting_pinger/slack_client.py:163-165 | the preamble is present exactly when both the current time and the target day are given |
| Slack.DigestHasEveryLine | meeting_pinger/slack_client.py:178-182 | every meeting's line `start - end  *summary*` appears in the digest |
| Slack.DigestTextSpec | meeting_pinger/slack_client.py:163-182 | a digest opens with its preamble and names its header in bold. An empty digest says "No meetings scheduled.". A non-empty one opens with the first start time and has a line for every meeting. |
| Slack.DigestAppend | meeting_pinger/slack_client.py:178-182 | one more meeting adds exactly its line at the end of the digest |
| Slack.ComposeDigest | meeting_pinger/slack_client.py:163-182 | the message built line by line is the digest text that DigestTextSpec describes |
| Slack.ChannelLookup | meeting_pinger/slack_client.py:104-112 | a channel is found exactly when the user is cached or conversations_open knows them, and a cached channel is returned as is |
| Slack.ChannelStable | meeting_pinger/slack_client.py:104-112 | after a successful lookup the user is cached, and every later lookup gives the same channel whatever Slack would answer |
| Slack.OpenedAtMostOnce | meeting_pinger/slack_client.py:104-112 | conversations_open is never called twice for the same user |
| Slack.SlackClient.constructor | meeting_pinger/slack_client.py:13-24 | a new client has no users, no digest handlers, no cached channels and has posted nothing |
| Slack.SlackClient.RegisterUser | meeting_pinger/slack_client.py:26-38 | the user's phrase is stored lowered and their handler replaces any earlier one |
| Slack.SlackClient.Route | meeting_pinger/slack_client.py:53-79 | an unregistered sender is ignored; `today` and `tomorrow` (after strip and lower) are the commands; a confirmation is exactly a registered non-command message starting with `<phrase> for `; the usage hint is never chosen |
| Slack.SlackClient.SetDigestHandlers | meeting_pinger/slack_client.py:40-47 | the digest commands become live |
| Slack.SlackClient.GetDmChannelId | meeting_pinger/slack_client.py:104-112 | the result is ChannelLookup's and the cache remembers an opened channel; conversations_open is called only on a cache miss |
| Slack.SlackClient.SendPing | meeting_pinger/slack_client.py:114-138 | exactly when the user can be reached, one reminder with the text PingTextSpec describes is posted to their channel; otherwise nothing is posted |
| Slack.SlackClient.SendDigest | meeting_pinger/slack_client.py:144-185 | exactly when the user can be reached, one digest with the text DigestTextSpec describes is posted to their channel; otherwise nothing is posted |
| Scheduler.MinutesUntilSpec | meeting_pinger/scheduler.py:116-118 | the count is the whole minutes to the start, truncated toward zero; it is 0 for a whole minute either side of the start |
| Scheduler.MinutesUntilExamples | meeting_pinger/scheduler.py:116-118 | 59 s late reads 0, 61 s late reads -1 (a floor would give -2), 121 s late reads -2 |
| Scheduler.DigestKeysDistinct | meeting_pinger/scheduler.py:136-137 | a morning key is never an evening key, and different dates have different keys |
| Scheduler.StepSent | meeting_pinger/scheduler.py:143-159 | a digest check never forgets a recorded key |
| Scheduler.MorningOncePerDate | meeting_pinger/scheduler.py:140-153 | however often the check runs and whatever the clock does, at most one morning digest goes out per date, never for a date already recorded, and every date sent is recorded |
| Scheduler.EveningOncePerDate | meeting_pinger/scheduler.py:155-169 | however often the check runs and whatever the clock does, at most one evening digest goes out per date, never for a date already recorded, and every date sent is recorded |
| Scheduler.Tomorrow | meeting_pinger/scheduler.py:161 | tomorrow is one day number later, and does not exist only on 9999-12-31 |
| Scheduler.DigestPostSpec | meeting_pinger/scheduler.py:145-153 | a digest is posted exactly when the day's entries arrived and the user can be reached; it is one message to their channel, with the header in bold and a line per entry |
| Scheduler.TomorrowPostsSpec | meeting_pinger/scheduler.py:161-167 | tomorrow's digest is about the next day and names it in the header; there is none on 9999-12-31 |
| Scheduler.DigestPostsAtMostOne | meeting_pinger/scheduler.py:140-169 | one check posts at most one digest, only when a window is open and its key is new, and records a key exactly then |
| Scheduler.SchedulerDigestsPlain | meeting_pinger/scheduler.py:147-151 | the scheduler's digests carry no preamble |
| Scheduler.MarkAllSpec | meeting_pinger/scheduler.py:115-126 | marking the due ids marks each exactly once and leaves every other entry alone |
| Scheduler.TickMarksDue | meeting_pinger/scheduler.py:108-128 | after a reachable poll, each due meeting still tracked is PINGING, was reminded now, and its count went up by exactly one |
| Scheduler.TickWellFormed | meeting_pinger/scheduler.py:108-128 | a poll keeps the table well formed |
| Scheduler.NoPingWithinInterval | meeting_pinger/scheduler.py:108-128 | a meeting reminded at one poll is not due at any later poll less than a ping interval afterwards, whatever that poll fetches |
| Scheduler.PingPostIgnoresStatus | meeting_pinger/scheduler.py:119-125 | the reminder does not depend on the entry's status |
| Scheduler.TickPostsSpec | meeting_pinger/scheduler.py:113-126 | a reachable poll posts one reminder per due meeting, in table order, each with ordinal count + 1 |
| Scheduler.CacheGrowsLookup | meeting_pinger/slack_client.py:104-112 | a cache that only learned channels from Slack answers every lookup as before |
| Scheduler.PingReplyReads | meeting_pinger/slack_client.py:54-77 | the reply a reminder suggests is read, by handle_message as written, as a confirmation of the lowered summary |
| Scheduler.PingReplyConfirms | meeting_pinger/slack_client.py:132-136 | replying with the suggested text confirms a PINGING meeting, and the answer says the reminders stopped |
| Scheduler.ConfirmedSummaryTruthy | meeting_pinger/scheduler.py:92-95 | for a non-empty name, the truthiness test on the result is the same as "a meeting was confirmed" |
| Scheduler.FetchUpcoming | meeting_pinger/scheduler.py:108-110 | the fetch gives the request's error, or the parsed meetings |
| Scheduler.FetchDay | meeting_pinger/scheduler.py:146 | the day's fetch gives the error, or the parsed entries |
| Scheduler.SendDayDigest | meeting_pinger/scheduler.py:145-153 | a failed fetch posts nothing; otherwise the digest is sent |
| Scheduler.TodayDigest | meeting_pinger/scheduler.py:146-151 | today's digest is posted as DigestPostSpec describes |
| Scheduler.TomorrowDigest | meeting_pinger/scheduler.py:161-167 | tomorrow's digest is posted as TomorrowPostsSpec describes |
| Scheduler.MorningDigest | meeting_pinger/scheduler.py:140-153 | the key is recorded before the fetch; the digest is posted only when the window is open and the key is new |
| Scheduler.EveningDigest | meeting_pinger/scheduler.py:155-169 | the same, for the evening key and tomorrow's digest |
| Scheduler.DigestCheck | meeting_pinger/scheduler.py:133-169 | one check records the keys and posts the digests that MorningOncePerDate and DigestPostsAtMostOne reason about |
| Scheduler.PingNext | meeting_pinger/scheduler.py:116-126 | a reminder is sent, then the meeting is marked; a failed send happens only on the first round, and marks nothing |
| Scheduler.PingRounds | meeting_pinger/scheduler.py:115-126 | the loop sends every reminder and marks every due meeting, or stops at its first round when the user cannot be reached |
| Scheduler.PingAll | meeting_pinger/scheduler.py:115-126 | the loop marks every due meeting and posts its reminder exactly when the user can be reached; otherwise nothing changes |
| Scheduler.PingAndClean | meeting_pinger/scheduler.py:113-128 | the reminders are sent, then cleanup_expired runs only if every send went through |
| Scheduler.TickSteps | meeting_pinger/scheduler.py:111-128 | the update, the scan, the reminders and the clean-up leave the table that TickTable describes, and post the reminders that TickPosts describes |
| Scheduler.FirstUser | meeting_pinger/scheduler.py:173-174 | the position found is the first user with that Slack id; there is none exactly when no user has it |
| Scheduler.UserState.constructor | meeting_pinger/scheduler.py:19-24 | a new user state has recorded no digests |
| Scheduler.Scheduler.constructor | meeting_pinger/scheduler.py:28-32 | a new scheduler has no users and a fresh, empty Slack client |
| Scheduler.Scheduler.AddUser | meeting_pinger/scheduler.py:38-60 | a user is appended with a fresh, empty tracker, and their phrase and confirmation handler (their own position) are registered |
| Scheduler.Scheduler.Enroll | meeting_pinger/scheduler.py:48-52 | the new state is appended, and every user keeps a state and a tracker of their own |
| Scheduler.Scheduler.WireDigests | meeting_pinger/scheduler.py:63-66 | the digest commands become live |
| Scheduler.Scheduler.HandleConfirmation | meeting_pinger/scheduler.py:87-95 | the user's own tracker is confirmed by name, and the result is returned |
| Scheduler.Scheduler.CheckDigests | meeting_pinger/scheduler.py:133-169 | one user's digest check, as DigestCheck states |
| Scheduler.Scheduler.TickPings | meeting_pinger/scheduler.py:108-128 | a failed fetch changes nothing; otherwise the user's table becomes TickTable's and their reminders are TickPosts' |
| Scheduler.Scheduler.FindUser | meeting_pinger/scheduler.py:173-174 | the loop finds the first user with the id, as FirstUser describes |
| Scheduler.Scheduler.SendTodayDigest | meeting_pinger/scheduler.py:171-182 | the first user with the id gets today's digest; an unknown id gets nothing |
| Scheduler.Scheduler.SendTomorrowDigest | meeting_pinger/scheduler.py:184-195 | the first user with the id gets tomorrow's digest; an unknown id gets nothing |
| Scheduler.Scheduler.RunCommand | meeting_pinger/slack_client.py:60-68 | `today` and `tomorrow` post the user's digest once the handlers are set, and post nothing before that |
| Scheduler.Scheduler.Dispatch | meeting_pinger/slack_client.py:57-90 | a confirmation touches only the sender's tracker, posts no message through the client, and gets the reply ConfirmationReplySpec describes; a command posts its digest |
| Scheduler.Scheduler.TickUser | meeting_pinger/scheduler.py:101-131 | one user's turn records their digest keys and leaves their table as TickTable says; no other user's state changes |
| Scheduler.Scheduler.Tick | meeting_pinger/scheduler.py:97-131 | every user's digest keys and table are updated as TickUser states, in order; one user's failure does not stop the others |

## Left out

- The run loop, its `asyncio.sleep` and `KeyboardInterrupt` handling, Socket Mode start and stop, OAuth with Google, logging, the health endpoint, `main.py` and loading the user list (`load_users`) are left out. They are I/O and process control.
- The clock is not modelled. A poll uses one instant `now` for every user and every step. The source reads `datetime.now` once in `_tick` (scheduler.py:99, which `minutes_until` uses) and afresh in `get_upcoming_meetings` (calendar_client.py:80, which sets the query window), `update_meetings`, `get_meetings_to_ping`, `mark_pinged` and `cleanup_expired`. Network calls lie between these readings: the Calendar request before `update_meetings`, a Slack post (and possibly `conversations_open`) before each `mark_pinged`, and, for a later user, every earlier user's requests and posts. So the readings can be seconds apart, and the model does not capture an entry that crosses a window or expiry boundary in that gap. Instants are whole seconds, without microseconds.
- Concurrency is not modelled. In the source, `handle_message` runs on the Socket Mode thread (slack_client.py:52-95, started at scheduler.py:67) at the same time as `_tick`, and no lock guards a tracker. Here each `Scheduler.Scheduler.Dispatch` runs whole between two polls. So the model does not capture two things. First, a confirmation arriving between `get_meetings_to_ping` and `send_ping`/`mark_pinged` (scheduler.py:111-126): the reminder is still posted and counted for a meeting that is already CONFIRMED. Second, the RuntimeError `confirm_by_name`'s comprehension (meeting_tracker.py:86-88) can raise while `update_meetings` inserts or `cleanup_expired` deletes. `Tracker.TerminalIsSink` and `Tracker.ConfirmEffect` hold for this one-at-a-time interleaving.
- Time zones and DST are not modelled. `local` is given together with `now`. The day window of `get_meetings_for_date` is stated on wall-clock readings rather than on UTC offsets.
- The Google Calendar request is a `Fetcher` parameter. Its results are trusted to be in the order it returns them. An event without `id` (a KeyError at calendar_client.py:133) is not represented: every raw event has an id. A missing `start` or `end` time is represented, and gives the same error the source raises.
- `chat_postMessage` is taken never to fail once a channel is known. Only `conversations_open` can fail, for a user missing from the directory.
- Unicode case folding and white space are not modelled: `lower` and `strip` work on ASCII, including the control characters that Python's `isspace` accepts.
- `PingState` records are values in the tracker's map. The objects `get_meetings_to_ping` returns are therefore not aliases of the tracked ones. The scheduler sends with the returned record and marks by id, so no behaviour changes.
- The confirmation handler the source registers is a closure over the user's state. Here it is that user's position in the list, and `Dispatch` calls `HandleConfirmation` with it. `handle_message` itself is split into `Slack.SlackClient.Route` (how the message is read, exactly as written) and `Scheduler.Scheduler.Dispatch` (what happens next). `say` is modelled as the returned reply.
- Scheduler.Scheduler.Tick: only states that the posted messages grow; which messages each user receives is stated per user by TickPings, CheckDigests and their lemmas, not for the whole poll.
- Scheduler.Scheduler.TickUser: only states that the posted messages grow, for the same reason.
- Scheduler.Scheduler.Tick: may modify every state and tracker ever enrolled, a superset of the current users' ones (they coincide, since users are never removed).
- Dates at the end of the calendar are handled by raising. `get_meetings_for_date` raises OverflowError for any time on 9999-12-31, because it forms the next midnight. So the morning digest and the `today` command raise on that date, and the evening digest and the `tomorrow` command raise on 9999-12-30 and 9999-12-31. The model posts nothing in each of these cases, which is the effect of that exception.

## Findings

| source | as written | input that shows it | evidently intended | confidence | as-written member | corrected member |
|---|---|---|---|---|---|---|
| meeting_pinger/slack_client.py:70-79 | The message is stripped before it is compared with the prefix `<phrase> for `, which ends in a space. So a message that consists of the prefix alone has lost that space and does not match. Any message that does match has a non-empty, non-blank remainder. The usage hint `Please specify the meeting` is therefore never sent. | `ok for` from a registered user whose phrase is `ok`: silently ignored | the bare `<phrase> for` is answered with the usage hint, which is what the `if not meeting_name:` branch at slack_client.py:77-78 exists to send | high (not executed) | Slack.ClassifyAsWritten, Slack.UsageHintUnreachable, Slack.BareCommandExample | Slack.Classify, Slack.ClassifyCorrection |
