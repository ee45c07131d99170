/** The records every part of the pinger shares: a meeting snapshot, the
    per-meeting reminder state, a user's configuration, the settings the core
    reads and the simplified digest entry. Instants are whole seconds since
    the Unix epoch (UTC). */
module Models {
  import opened Wrappers

  /** The four statuses of a reminder. */
  datatype PingStatus = Pending | Pinging | Confirmed | Expired

  /** The enum's string values. */
  function StatusValue(s: PingStatus): (v: string)
    ensures |v| > 0
  {
    match s
    case Pending => "pending"
    case Pinging => "pinging"
    case Confirmed => "confirmed"
    case Expired => "expired"
  }

  /** There are exactly four statuses and their values are pairwise distinct. */
  lemma StatusValuesDistinct(a: PingStatus, b: PingStatus)
    ensures a == Pending || a == Pinging || a == Confirmed || a == Expired
    ensures StatusValue(a) == StatusValue(b) <==> a == b
  {
  }

  /** CONFIRMED and EXPIRED: no operation moves a reminder out of them. */
  predicate IsTerminal(s: PingStatus) {
    s == Confirmed || s == Expired
  }

  /** An immutable snapshot of one calendar event at fetch time. */
  datatype Meeting = Meeting(
    eventId: string,
    summary: string,
    startTime: int,
    endTime: int,
    isAllDay: bool,
    isDeclined: bool,
    isCancelled: bool,
    htmlLink: string)

  /** A Meeting built from its four required fields; the rest take their
      declared defaults. */
  function NewMeeting(eventId: string, summary: string, startTime: int, endTime: int): (m: Meeting)
    ensures m.eventId == eventId && m.summary == summary
    ensures m.startTime == startTime && m.endTime == endTime
    ensures !m.isAllDay && !m.isDeclined && !m.isCancelled && m.htmlLink == ""
  {
    Meeting(eventId, summary, startTime, endTime, false, false, false, "")
  }

  /** The tracking record for one meeting of one user. */
  datatype PingState = PingState(
    meeting: Meeting,
    status: PingStatus,
    lastPingAt: Option<int>,
    pingCount: nat,
    isConfirmed: bool)

  /** PingState(meeting=m): a fresh record has never been pinged. */
  function NewPingState(m: Meeting): (s: PingState)
    ensures s.meeting == m && s.status == Pending && s.lastPingAt == None
    ensures s.pingCount == 0 && !s.isConfirmed
  {
    PingState(m, Pending, None, 0, false)
  }

  datatype UserConfig = UserConfig(
    slackUserId: string,
    googleTokenJson: string,
    googleCalendarId: string,
    confirmationPhrase: string,
    name: string)

  /** A UserConfig built from its two required fields. */
  function NewUserConfig(slackUserId: string, googleTokenJson: string): (c: UserConfig)
    ensures c.slackUserId == slackUserId && c.googleTokenJson == googleTokenJson
    ensures c.googleCalendarId == "primary" && c.confirmationPhrase == "ok" && c.name == ""
  {
    UserConfig(slackUserId, googleTokenJson, "primary", "ok", "")
  }

  /** The behaviour settings the core reads. */
  datatype Settings = Settings(
    pingLeadTimeMinutes: int,
    pingIntervalSeconds: int,
    pollIntervalSeconds: int,
    lookaheadMinutes: int,
    confirmationPhrase: string,
    isSkipAllDayEvents: bool,
    isSkipDeclinedEvents: bool)

  function DefaultSettings(): (s: Settings)
    ensures s.pingLeadTimeMinutes == 5 && s.pingIntervalSeconds == 60
    ensures s.pollIntervalSeconds == 30 && s.lookaheadMinutes == 15
    ensures s.confirmationPhrase == "ok"
    ensures s.isSkipAllDayEvents && s.isSkipDeclinedEvents
  {
    Settings(5, 60, 30, 15, "ok", true, true)
  }

  /** One line of a daily digest: the dict with 'summary', 'start_time' and
      'end_time' that the calendar hands to the digest sender. */
  datatype DigestEntry = DigestEntry(summary: string, startTime: string, endTime: string)
}
