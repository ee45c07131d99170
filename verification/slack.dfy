/** The Slack side of the pinger: how an inbound direct message is read, the
    replies and messages the bot composes, and the SlackClient object that
    keeps the registered users, the cache of direct-message channels and the
    messages it has posted. */
module Slack {
  import opened Wrappers
  import opened Text
  import opened Seqs
  import opened Models

  // ---------------------------------------------------------------------
  // Reading an inbound message (handle_message)

  /** What handle_message makes of one direct message. */
  datatype Inbound =
    | Ignored
    | TodayCommand
    | TomorrowCommand
    | UsageHint
    | Confirmation(meetingName: string)

  /** The text handle_message compares: stripped, then lowered. */
  function MessageText(raw: string): (text: string)
    ensures IsLowerCase(text)
  {
    LowerIsLowerCase(Strip(raw));
    Lower(Strip(raw))
  }

  function ConfirmPrefix(phrase: string): string {
    phrase + " for "
  }

  /** The phrase registered for a user, "ok" when there is none. */
  function PhraseOf(phrases: map<string, string>, user: string): string {
    if user in phrases then phrases[user] else "ok"
  }

  /** The part of handle_message after the two commands: a message that
      starts with the prefix names a meeting, or asks for the syntax when
      nothing follows the prefix. */
  function ReadConfirmation(text: string, phrase: string): Inbound {
    var prefix := ConfirmPrefix(phrase);
    if !StartsWith(text, prefix) then Ignored
    else
      var name := Strip(text[|prefix|..]);
      if name == "" then UsageHint else Confirmation(name)
  }

  /** handle_message's decision exactly as written. */
  function ClassifyAsWritten(raw: string, isRegistered: bool, phrase: string): Inbound {
    var text := MessageText(raw);
    if !isRegistered then Ignored
    else if text == "today" then TodayCommand
    else if text == "tomorrow" then TomorrowCommand
    else ReadConfirmation(text, phrase)
  }

  /** On a text with no trailing whitespace (as every stripped message is),
      whatever follows the prefix strips to something non-empty, so the
      usage hint is never chosen. */
  lemma ReadConfirmationNeverHints(text: string, phrase: string)
    requires text == [] || !IsSpace(text[|text| - 1])
    ensures ReadConfirmation(text, phrase) != UsageHint
  {
    var prefix := ConfirmPrefix(phrase);
    if StartsWith(text, prefix) {
      var rest := text[|prefix|..];
      if rest != [] {
        assert rest[|rest| - 1] == text[|text| - 1];
        StripEmpty(rest);
      }
    }
  }

  /** The usage hint is unreachable in handle_message as written. */
  lemma UsageHintUnreachable(raw: string, isRegistered: bool, phrase: string)
    ensures ClassifyAsWritten(raw, isRegistered, phrase) != UsageHint
  {
    LowerStripEnd(raw);
    ReadConfirmationNeverHints(MessageText(raw), phrase);
  }

  /** The bare command "ok for", which a user sends to learn the syntax, is
      silently ignored as written and answered with the usage hint once
      corrected. */
  lemma BareCommandExample()
    ensures ClassifyAsWritten("ok for", true, "ok") == Ignored
    ensures Classify("ok for", true, "ok") == UsageHint
  {
    var text := "ok for";
    assert TrimStart(text) == text;
    assert TrimEnd(text) == text;
    assert IsLowerCase(text);
    LowerOfLowerCase(text);
    assert MessageText(text) == text;
    assert text != "today" && text != "tomorrow";
    assert !StartsWith(text, ConfirmPrefix("ok"));
    assert text == "ok" + " for";
  }

  /** handle_message's decision with the usage hint reachable: the bare
      command (the prefix without the space that strip removed) gets the
      hint; everything else is decided as written. */
  function Classify(raw: string, isRegistered: bool, phrase: string): (r: Inbound)
    ensures !isRegistered ==> r == Ignored
  {
    var text := MessageText(raw);
    if !isRegistered then Ignored
    else if text == "today" then TodayCommand
    else if text == "tomorrow" then TomorrowCommand
    else if text == phrase + " for" then UsageHint
    else ReadConfirmation(text, phrase)
  }

  /** The correction changes nothing but the hint: it is sent exactly for the
      bare command, and on every other message both readings agree. */
  lemma ClassifyCorrection(raw: string, isRegistered: bool, phrase: string)
    ensures var text := MessageText(raw);
      Classify(raw, isRegistered, phrase) == UsageHint <==>
        isRegistered && text != "today" && text != "tomorrow" && text == phrase + " for"
    ensures Classify(raw, isRegistered, phrase) != UsageHint ==>
              Classify(raw, isRegistered, phrase) == ClassifyAsWritten(raw, isRegistered, phrase)
  {
    LowerStripEnd(raw);
    ReadConfirmationNeverHints(MessageText(raw), phrase);
  }

  /** A confirmation names a non-empty, lower-case, stripped piece of what
      follows the prefix; and conversely every registered message other than
      the two commands that starts with the prefix is a confirmation. */
  lemma ConfirmationSpec(raw: string, isRegistered: bool, phrase: string)
    ensures var text, prefix := MessageText(raw), ConfirmPrefix(phrase);
      var r := ClassifyAsWritten(raw, isRegistered, phrase);
      && (r.Confirmation? <==>
            isRegistered && text != "today" && text != "tomorrow" && StartsWith(text, prefix))
      && (r.Confirmation? ==>
            && r.meetingName != ""
            && IsLowerCase(r.meetingName)
            && Strip(r.meetingName) == r.meetingName
            && Contains(text[|prefix|..], r.meetingName))
  {
    var text, prefix := MessageText(raw), ConfirmPrefix(phrase);
    LowerStripEnd(raw);
    ReadConfirmationNeverHints(text, phrase);
    if isRegistered && StartsWith(text, prefix) {
      var rest := text[|prefix|..];
      SliceOfLowerCase(text, |prefix|, |text|);
      StripOfLowerCase(rest);
      StripIdempotent(rest);
      StripShape(rest);
    }
  }

  /** Letter case does not matter: lowering a message first changes nothing,
      as written and once corrected. */
  lemma ClassifyIgnoresCase(raw: string, isRegistered: bool, phrase: string)
    ensures ClassifyAsWritten(Lower(raw), isRegistered, phrase) == ClassifyAsWritten(raw, isRegistered, phrase)
    ensures Classify(Lower(raw), isRegistered, phrase) == Classify(raw, isRegistered, phrase)
  {
    MessageTextIgnoresCase(raw);
  }

  /** The text a message is classified on is already lower-case. */
  lemma MessageTextIgnoresCase(raw: string)
    ensures MessageText(Lower(raw)) == MessageText(raw)
  {
    LowerStripCommute(raw);
    LowerTwice(Strip(raw));
  }

  /** Surrounding whitespace does not matter, as written and once
      corrected. */
  lemma ClassifyIgnoresPadding(raw: string, isRegistered: bool, phrase: string)
    ensures ClassifyAsWritten(Strip(raw), isRegistered, phrase) == ClassifyAsWritten(raw, isRegistered, phrase)
    ensures Classify(Strip(raw), isRegistered, phrase) == Classify(raw, isRegistered, phrase)
  {
    StripIdempotent(raw);
  }

  // ---------------------------------------------------------------------
  // Pieces of Slack's markup

  function Bold(s: string): string {
    "*" + s + "*"
  }

  function Code(s: string): string {
    "`" + s + "`"
  }

  function Quoted(s: string): string {
    "\"" + s + "\""
  }

  // ---------------------------------------------------------------------
  // Replies to a confirmation

  function UsageText(phrase: string): string {
    "Please specify the meeting: " + Code(phrase + " for <meeting name>")
  }

  /** Python truthiness of the handler's Optional[str] result. */
  predicate IsTruthy(result: Option<string>) {
    result.Some? && result.value != ""
  }

  const ConfirmedOpening := "Got it. Stopping pings for "
  const UnmatchedOpening := "No active meeting matching "

  function ConfirmationReply(phrase: string, meetingName: string, result: Option<string>): string {
    if IsTruthy(result) then ConfirmedOpening + Bold(result.value) + "."
    else UnmatchedOpening + Quoted(meetingName) + ". Try " + Code(phrase + " for <part of the meeting name>") + "."
  }

  /** A confirmed meeting is named in bold in the reply; otherwise the reply
      quotes the name it could not match and repeats the syntax. */
  lemma ConfirmationReplySpec(phrase: string, meetingName: string, result: Option<string>)
    ensures var reply := ConfirmationReply(phrase, meetingName, result);
      && (IsTruthy(result) ==>
            StartsWith(reply, ConfirmedOpening) && Contains(reply, Bold(result.value)))
      && (!IsTruthy(result) ==>
            && StartsWith(reply, UnmatchedOpening)
            && Contains(reply, Quoted(meetingName))
            && Contains(reply, Code(phrase + " for <part of the meeting name>")))
  {
    if IsTruthy(result) {
      StartsWithAppend(ConfirmedOpening, Bold(result.value));
      StartsWithExtend(ConfirmedOpening + Bold(result.value), ".", ConfirmedOpening);
      ContainsPiece(ConfirmedOpening, Bold(result.value), ".");
    } else {
      var a := UnmatchedOpening + Quoted(meetingName);
      var b := a + ". Try ";
      var code := Code(phrase + " for <part of the meeting name>");
      StartsWithAppend(UnmatchedOpening, Quoted(meetingName));
      StartsWithExtend(a, ". Try ", UnmatchedOpening);
      StartsWithExtend(b, code, UnmatchedOpening);
      StartsWithExtend(b + code, ".", UnmatchedOpening);
      ContainsEnd(UnmatchedOpening, Quoted(meetingName));
      ContainsExtendRight(a, ". Try ", Quoted(meetingName));
      ContainsExtendRight(b, code, Quoted(meetingName));
      ContainsExtendRight(b + code, ".", Quoted(meetingName));
      ContainsPiece(b, code, ".");
    }
  }

  // ---------------------------------------------------------------------
  // The ping message (send_ping)

  /** " minute" or " minutes", as the count requires. */
  function MinuteWord(n: int): (r: string)
    ensures r == " minute" || r == " minutes"
    ensures r == " minute" <==> n == 1
  {
    " minute" + (if n != 1 then "s" else "")
  }

  const SoonOpening := "starts in "
  const LateOpening := "started "

  /** How far the meeting is, from whole minutes until its start. */
  function TimeText(minutesUntil: int): (r: string)
    ensures |r| > 0
  {
    if minutesUntil > 0 then SoonOpening + (NatToString(minutesUntil) + MinuteWord(minutesUntil))
    else if minutesUntil == 0 then "is starting NOW"
    else LateOpening + (NatToString(-minutesUntil) + (MinuteWord(-minutesUntil) + " ago"))
  }

  /** Different counts of minutes are never described alike. */
  lemma TimeTextInjective(a: int, b: int)
    requires TimeText(a) == TimeText(b)
    ensures a == b
  {
    var ta, tb := TimeText(a), TimeText(b);
    if a > 0 && b > 0 {
      AppendCancel(SoonOpening, NatToString(a) + MinuteWord(a), NatToString(b) + MinuteWord(b));
      NatToStringBoundary(a, MinuteWord(a), b, MinuteWord(b));
    } else if a < 0 && b < 0 {
      var xa, xb := MinuteWord(-a) + " ago", MinuteWord(-b) + " ago";
      AppendCancel(LateOpening, NatToString(-a) + xa, NatToString(-b) + xb);
      NatToStringBoundary(-a, xa, -b, xb);
    } else {
      TimeTextMarks(a);
      TimeTextMarks(b);
    }
  }

  /** The three phrasings of send_ping: "is starting NOW" exactly at zero,
      "starts in ..." exactly for a meeting ahead, "started ... ago" exactly
      for one under way. */
  lemma TimeTextPhrasing(m: int)
    ensures TimeText(m) == "is starting NOW" <==> m == 0
    ensures m > 0 <==> StartsWith(TimeText(m), SoonOpening)
    ensures m < 0 <==> StartsWith(TimeText(m), LateOpening) && EndsWith(TimeText(m), " ago")
  {
    TimeTextMarks(m);
    var r := TimeText(m);
    if m > 0 {
      StartsWithAppend(SoonOpening, NatToString(m) + MinuteWord(m));
      assert r[5] != LateOpening[5];
    } else if m == 0 {
      assert r[0] != SoonOpening[0] && r[0] != LateOpening[0];
    } else {
      StartsWithAppend(LateOpening, NatToString(-m) + (MinuteWord(-m) + " ago"));
      assert r[5] != SoonOpening[5];
      assert r == LateOpening + (NatToString(-m) + MinuteWord(-m)) + " ago";
      assert EndsWith(r, " ago");
    }
  }

  /** Away from zero the phrase is an opening, the absolute count, the unit
      and a closing. */
  lemma TimeTextPieces(m: int)
    requires m != 0
    ensures var n := if m < 0 then -m else m;
      TimeText(m) == (if m > 0 then SoonOpening else LateOpening) + NatToString(n) + MinuteWord(n)
                     + (if m > 0 then "" else " ago")
  {
  }

  /** Away from zero the phrase carries the absolute count of minutes, and
      the unit is plural exactly when that count is not 1. */
  lemma TimeTextCount(m: int)
    requires m != 0
    ensures Contains(TimeText(m), NatToString(if m < 0 then -m else m))
    ensures Contains(TimeText(m), " minutes") <==> m != 1 && m != -1
  {
    var n: nat := if m < 0 then -m else m;
    var opening, closing := if m > 0 then SoonOpening else LateOpening, if m > 0 then "" else " ago";
    TimeTextPieces(m);
    assert TimeText(m) == opening + NatToString(n) + (MinuteWord(n) + closing);
    ContainsPiece(opening, NatToString(n), MinuteWord(n) + closing);
    if n == 1 {
      SingleMinuteText(m);
    } else {
      assert TimeText(m) == opening + NatToString(n) + " minutes" + closing;
      ContainsPiece(opening + NatToString(n), " minutes", closing);
    }
  }

  lemma SingleMinuteText(m: int)
    requires m == 1 || m == -1
    ensures !Contains(TimeText(m), " minutes")
  {
    assert NatToString(1) == "1";
    if m == 1 {
      assert TimeText(m) == "starts in 1 minute";
    } else {
      assert TimeText(m) == "started 1 minute ago";
    }
    NotContainsByLast(TimeText(m), " minutes");
  }

  /** The characters that tell the three phrasings apart. */
  lemma TimeTextMarks(m: int)
    ensures |TimeText(m)| > 5
    ensures TimeText(m)[0] == if m == 0 then 'i' else 's'
    ensures m != 0 ==> TimeText(m)[5] == if m > 0 then 's' else 'e'
  {
  }

  const PingOpening := "*Meeting Reminder* (ping #"

  /** Everything after the ordinal: the meeting in bold, how far it is, and
      the exact reply that stops the reminders. */
  function PingBody(summary: string, minutesUntil: int, phrase: string): string {
    ")\n> " + Bold(summary) + " " + TimeText(minutesUntil) + "\nReply " + Code(phrase + " for " + summary)
    + " to stop pinging."
  }

  function PingBodyPieces(summary: string, minutesUntil: int, phrase: string): seq<string> {
    [")\n> ", Bold(summary), " ", TimeText(minutesUntil), "\nReply ", Code(phrase + " for " + summary),
     " to stop pinging."]
  }

  /** The reminder send_ping posts, piece by piece. */
  function PingText(summary: string, minutesUntil: int, pingCount: int, phrase: string): string {
    Concat([PingOpening, IntToString(pingCount)] + PingBodyPieces(summary, minutesUntil, phrase))
  }

  /** The reminder is the opening, the ordinal, then the body. */
  lemma PingTextShape(summary: string, minutesUntil: int, pingCount: int, phrase: string)
    ensures PingText(summary, minutesUntil, pingCount, phrase)
              == PingOpening + (IntToString(pingCount) + PingBody(summary, minutesUntil, phrase))
  {
    var b := PingBodyPieces(summary, minutesUntil, phrase);
    assert [PingOpening, IntToString(pingCount)] + b == [PingOpening] + ([IntToString(pingCount)] + b);
    ConcatCons(PingOpening, [IntToString(pingCount)] + b);
    ConcatCons(IntToString(pingCount), b);
    assert Concat(b) == PingBody(summary, minutesUntil, phrase) by {
      PingBodyFlat(summary, minutesUntil, phrase);
    }
  }

  lemma PingBodyFlat(summary: string, minutesUntil: int, phrase: string)
    ensures Concat(PingBodyPieces(summary, minutesUntil, phrase)) == PingBody(summary, minutesUntil, phrase)
  {
    ConcatSeven(")\n> ", Bold(summary), " ", TimeText(minutesUntil), "\nReply ", Code(phrase + " for " + summary),
                " to stop pinging.");
  }


  /** The reminder carries its ordinal, the meeting in bold, the time phrase
      and the reply to send. */
  lemma PingTextSpec(summary: string, minutesUntil: int, pingCount: int, phrase: string)
    ensures var text := PingText(summary, minutesUntil, pingCount, phrase);
      && StartsWith(text, PingOpening + IntToString(pingCount) + ")\n> ")
      && Contains(text, Bold(summary))
      && Contains(text, TimeText(minutesUntil))
      && Contains(text, Code(phrase + " for " + summary))
  {
    var body := PingBody(summary, minutesUntil, phrase);
    var code := Code(phrase + " for " + summary);
    ThreePieces(")\n> ", Bold(summary), " ", TimeText(minutesUntil), "\nReply ", code, " to stop pinging.");
    StartsWithAfter(PingOpening, IntToString(pingCount), body, ")\n> ");
    PingTextShape(summary, minutesUntil, pingCount, phrase);
    ContainsExtendLeft(IntToString(pingCount), body, Bold(summary));
    ContainsExtendLeft(IntToString(pingCount), body, TimeText(minutesUntil));
    ContainsExtendLeft(IntToString(pingCount), body, code);
    ContainsExtendLeft(PingOpening, IntToString(pingCount) + body, Bold(summary));
    ContainsExtendLeft(PingOpening, IntToString(pingCount) + body, TimeText(minutesUntil));
    ContainsExtendLeft(PingOpening, IntToString(pingCount) + body, code);
  }

  /** The ordinal can be read back from a reminder: two reminders with
      different ordinals never read alike. */
  lemma PingOrdinalReadback(s1: string, m1: int, c1: nat, p1: string, s2: string, m2: int, c2: nat, p2: string)
    requires PingText(s1, m1, c1, p1) == PingText(s2, m2, c2, p2)
    ensures c1 == c2
  {
    var x1, x2 := PingBody(s1, m1, p1), PingBody(s2, m2, p2);
    PingTextShape(s1, m1, c1, p1);
    PingTextShape(s2, m2, c2, p2);
    AppendCancel(PingOpening, NatToString(c1) + x1, NatToString(c2) + x2);
    assert x1[0] == ')' && x2[0] == ')';
    NatToStringBoundary(c1, x1, c2, x2);
  }

  // ---------------------------------------------------------------------
  // The digest message (send_digest)

  function Preamble(currentTime: string, targetDay: string): (r: string)
    ensures r != "" <==> currentTime != "" && targetDay != ""
  {
    if currentTime != "" && targetDay != "" then
      "_It is " + currentTime + ". Showing schedule for " + targetDay + "._\n\n"
    else ""
  }

  function FirstLine(startTime: string): string {
    Bold("Your first meeting is at " + startTime) + "\n"
  }

  function EntryLine(m: DigestEntry): string {
    "  " + m.startTime + " - " + m.endTime + "  " + Bold(m.summary)
  }

  const NoMeetings := "\nNo meetings scheduled."

  /** The first line of a non-empty digest's list: the optional preamble,
      the first start time and the header. */
  function DigestHead(header: string, firstStart: string, currentTime: string, targetDay: string): string {
    Preamble(currentTime, targetDay) + FirstLine(firstStart) + "\n" + Bold(header) + "\n"
  }

  function EntryLines(meetings: seq<DigestEntry>): (r: seq<string>)
    ensures |r| == |meetings|
    ensures forall i :: 0 <= i < |meetings| ==> r[i] == EntryLine(meetings[i])
  {
    seq(|meetings|, i requires 0 <= i < |meetings| => EntryLine(meetings[i]))
  }

  /** The text send_digest posts. */
  function DigestText(header: string, meetings: seq<DigestEntry>, currentTime: string, targetDay: string): string {
    if meetings == [] then Preamble(currentTime, targetDay) + Bold(header) + NoMeetings
    else Join("\n", [DigestHead(header, meetings[0].startTime, currentTime, targetDay)] + EntryLines(meetings))
  }

  /** Every digest opens with its preamble and names its header in bold; an
      empty one says there is nothing, and a non-empty one opens with the
      first start time and has a line for every meeting. */
  lemma DigestTextSpec(header: string, meetings: seq<DigestEntry>, currentTime: string, targetDay: string)
    ensures var text, pre := DigestText(header, meetings, currentTime, targetDay), Preamble(currentTime, targetDay);
      && StartsWith(text, pre)
      && Contains(text, Bold(header))
      && (meetings == [] ==> Contains(text, NoMeetings))
      && (meetings != [] ==>
            && StartsWith(text, pre + FirstLine(meetings[0].startTime))
            && forall i | 0 <= i < |meetings| :: Contains(text, EntryLine(meetings[i])))
  {
    if meetings == [] {
      EmptyDigestSpec(header, currentTime, targetDay);
    } else {
      DigestLayout(header, meetings, currentTime, targetDay);
      DigestHeadSpec(header, meetings[0].startTime, currentTime, targetDay);
      var head := DigestHead(header, meetings[0].startTime, currentTime, targetDay);
      var rest := "\n" + Join("\n", EntryLines(meetings));
      StartsWithExtend(head, rest, Preamble(currentTime, targetDay) + FirstLine(meetings[0].startTime));
      StartsWithExtend(head, rest, Preamble(currentTime, targetDay));
      ContainsExtendRight(head, rest, Bold(header));
      DigestHasEveryLine(header, meetings, currentTime, targetDay);
    }
  }

  lemma EmptyDigestSpec(header: string, currentTime: string, targetDay: string)
    ensures var text, pre := DigestText(header, [], currentTime, targetDay), Preamble(currentTime, targetDay);
      StartsWith(text, pre) && Contains(text, Bold(header)) && Contains(text, NoMeetings)
  {
    var pre := Preamble(currentTime, targetDay);
    StartsWithAppend(pre, Bold(header));
    StartsWithExtend(pre + Bold(header), NoMeetings, pre);
    ContainsPiece(pre, Bold(header), NoMeetings);
    ContainsEnd(pre + Bold(header), NoMeetings);
  }

  /** A non-empty digest is its head line, then its entry lines. */
  lemma DigestLayout(header: string, meetings: seq<DigestEntry>, currentTime: string, targetDay: string)
    requires meetings != []
    ensures DigestText(header, meetings, currentTime, targetDay)
         == DigestHead(header, meetings[0].startTime, currentTime, targetDay) + ("\n" + Join("\n", EntryLines(meetings)))
  {
    JoinPrepend("\n", DigestHead(header, meetings[0].startTime, currentTime, targetDay), EntryLines(meetings));
  }

  lemma DigestHasEveryLine(header: string, meetings: seq<DigestEntry>, currentTime: string, targetDay: string)
    ensures forall i | 0 <= i < |meetings| :: Contains(DigestText(header, meetings, currentTime, targetDay), EntryLine(meetings[i]))
  {
    if meetings != [] {
      var head := DigestHead(header, meetings[0].startTime, currentTime, targetDay);
      var lines := EntryLines(meetings);
      forall i | 0 <= i < |meetings|
        ensures Contains(Join("\n", [head] + lines), EntryLine(meetings[i]))
      {
        JoinContains("\n", [head] + lines, i + 1);
        assert ([head] + lines)[i + 1] == EntryLine(meetings[i]);
      }
    }
  }

  lemma DigestHeadSpec(header: string, firstStart: string, currentTime: string, targetDay: string)
    ensures var head, pre := DigestHead(header, firstStart, currentTime, targetDay), Preamble(currentTime, targetDay);
      && StartsWith(head, pre + FirstLine(firstStart))
      && StartsWith(head, pre)
      && Contains(head, Bold(header))
  {
    var pre := Preamble(currentTime, targetDay);
    var opening := pre + FirstLine(firstStart);
    var a := opening + "\n";
    StartsWithAppend(pre, FirstLine(firstStart));
    StartsWithAppend(opening, "\n");
    StartsWithExtend(a, Bold(header), opening);
    StartsWithExtend(a + Bold(header), "\n", opening);
    StartsWithExtend(opening, "\n", pre);
    StartsWithExtend(a, Bold(header), pre);
    StartsWithExtend(a + Bold(header), "\n", pre);
    ContainsPiece(a, Bold(header), "\n");
  }

  /** One more meeting at the end of the list adds exactly its line at the
      end of the digest. */
  lemma DigestAppend(header: string, meetings: seq<DigestEntry>, m: DigestEntry, currentTime: string, targetDay: string)
    requires meetings != []
    ensures DigestText(header, meetings + [m], currentTime, targetDay)
         == DigestText(header, meetings, currentTime, targetDay) + "\n" + EntryLine(m)
  {
    var head := DigestHead(header, meetings[0].startTime, currentTime, targetDay);
    assert (meetings + [m])[0] == meetings[0];
    var parts := [head] + EntryLines(meetings + [m]);
    assert parts[..|parts| - 1] == [head] + EntryLines(meetings);
  }

  /** send_digest's message, built line by line as the source does. */
  method ComposeDigest(header: string, meetings: seq<DigestEntry>, currentTime: string, targetDay: string)
    returns (text: string)
    ensures text == DigestText(header, meetings, currentTime, targetDay)
  {
    var preamble := "";
    if currentTime != "" && targetDay != "" {
      preamble := "_It is " + currentTime + ". Showing schedule for " + targetDay + "._\n\n";
    }
    if meetings == [] {
      return preamble + Bold(header) + NoMeetings;
    }
    var firstTime := meetings[0].startTime;
    var firstLine := FirstLine(firstTime);
    var lines := [preamble + firstLine + "\n" + Bold(header) + "\n"];
    var i := 0;
    while i < |meetings|
      invariant 0 <= i <= |meetings|
      invariant lines == [DigestHead(header, firstTime, currentTime, targetDay)] + EntryLines(meetings[..i])
    {
      var m := meetings[i];
      lines := lines + ["  " + m.startTime + " - " + m.endTime + "  " + Bold(m.summary)];
      assert EntryLines(meetings[..i + 1]) == EntryLines(meetings[..i]) + [EntryLine(m)];
      i := i + 1;
    }
    assert meetings[..i] == meetings;
    text := Join("\n", lines);
  }

  // ---------------------------------------------------------------------
  // Direct-message channels (_get_dm_channel_id)

  /** A message posted to a channel. */
  datatype Post = Post(channel: string, text: string)

  /** The channel for a user: the cached one, else the one
      conversations_open would open (the directory stands for Slack's answer;
      a user missing from it makes the call fail). */
  function ChannelLookup(cache: map<string, string>, directory: map<string, string>, userId: string): (r: Result<string>)
    ensures r.Ok? <==> userId in cache || userId in directory
    ensures userId in cache ==> r == Ok(cache[userId])
  {
    if userId in cache then Ok(cache[userId])
    else if userId in directory then Ok(directory[userId])
    else Err("conversations_open failed")
  }

  /** The cache after one lookup: an opened channel is remembered. */
  function CacheAfter(cache: map<string, string>, directory: map<string, string>, userId: string): map<string, string> {
    if userId in cache || userId !in directory then cache
    else cache[userId := directory[userId]]
  }

  /** A lookup that succeeded is answered the same way forever after,
      whatever Slack would answer later, and no cached channel ever changes. */
  lemma ChannelStable(cache: map<string, string>, directory: map<string, string>, later: map<string, string>, userId: string)
    ensures var c := CacheAfter(cache, directory, userId);
      && (forall u | u in cache :: u in c && c[u] == cache[u])
      && (ChannelLookup(cache, directory, userId).Ok? ==>
            ChannelLookup(c, later, userId) == ChannelLookup(cache, directory, userId))
  {
  }

  // ---------------------------------------------------------------------
  // The client object

  class SlackClient {
    /** Registered users' confirmation phrases, lowered. */
    var phrases: map<string, string>
    /** Registered users' confirmation handlers: the position of the user's
        state in the scheduler's list, which the handler closes over. */
    var handlers: map<string, nat>
    /** Whether the today/tomorrow handlers have been set. */
    var isDigestWired: bool
    var dmChannels: map<string, string>
    /** Users for whom conversations_open succeeded, in call order. */
    var openedFor: seq<string>
    /** Messages posted with chat_postMessage, in order. */
    var outbox: seq<Post>

    ghost predicate Valid()
      reads this
    {
      && phrases.Keys == handlers.Keys
      && (forall u | u in phrases :: IsLowerCase(phrases[u]))
      && |openedFor| == |dmChannels|
      && Elems(openedFor) == dmChannels.Keys
    }

    constructor ()
      ensures Valid()
      ensures phrases == map[] && handlers == map[] && !isDigestWired
      ensures dmChannels == map[] && openedFor == [] && outbox == []
    {
      phrases := map[];
      handlers := map[];
      isDigestWired := false;
      dmChannels := map[];
      openedFor := [];
      outbox := [];
    }

    /** How handle_message reads a message from `user`: only a registered
        sender is heard, the two commands are recognised after strip and
        lower, a message starting with the sender's prefix is a
        confirmation, and the usage hint is never chosen. */
    function Route(user: string, raw: string): (r: Inbound)
      reads this`handlers, this`phrases
      ensures user !in handlers ==> r == Ignored
      ensures r == TodayCommand <==> user in handlers && MessageText(raw) == "today"
      ensures r == TomorrowCommand <==> user in handlers && MessageText(raw) == "tomorrow"
      ensures r.Confirmation? <==>
                && user in handlers && MessageText(raw) != "today" && MessageText(raw) != "tomorrow"
                && StartsWith(MessageText(raw), ConfirmPrefix(PhraseOf(phrases, user)))
      ensures r != UsageHint
    {
      UsageHintUnreachable(raw, user in handlers, PhraseOf(phrases, user));
      ConfirmationSpec(raw, user in handlers, PhraseOf(phrases, user));
      ClassifyAsWritten(raw, user in handlers, PhraseOf(phrases, user))
    }

    /** register_user */
    method RegisterUser(userId: string, phrase: string, handler: nat)
      requires Valid()
      modifies this`phrases, this`handlers
      ensures Valid()
      ensures phrases == old(phrases)[userId := Lower(phrase)]
      ensures handlers == old(handlers)[userId := handler]
    {
      LowerIsLowerCase(phrase);
      phrases := phrases[userId := Lower(phrase)];
      handlers := handlers[userId := handler];
    }

    /** set_digest_handlers */
    method SetDigestHandlers()
      modifies this`isDigestWired
      ensures isDigestWired
    {
      isDigestWired := true;
    }

    /** _get_dm_channel_id: conversations_open is called at most once per
        user, and only when the cache misses. */
    method GetDmChannelId(userId: string, directory: map<string, string>) returns (r: Result<string>)
      requires Valid()
      modifies this`dmChannels, this`openedFor
      ensures Valid()
      ensures r == ChannelLookup(old(dmChannels), directory, userId)
      ensures dmChannels == CacheAfter(old(dmChannels), directory, userId)
      ensures openedFor == if userId in old(dmChannels) || userId !in directory then old(openedFor)
                        else old(openedFor) + [userId]
    {
      if userId in dmChannels {
        return Ok(dmChannels[userId]);
      }
      if userId !in directory {
        return Err("conversations_open failed");
      }
      var channelId := directory[userId];
      assert userId !in openedFor;
      assert Elems(openedFor + [userId]) == Elems(openedFor) + {userId};
      dmChannels := dmChannels[userId := channelId];
      openedFor := openedFor + [userId];
      return Ok(channelId);
    }

    /** send_ping */
    method SendPing(userId: string, summary: string, minutesUntil: int, pingCount: int, phrase: string,
                    directory: map<string, string>)
      returns (isSent: bool)
      requires Valid()
      modifies this`dmChannels, this`openedFor, this`outbox
      ensures Valid()
      ensures isSent == ChannelLookup(old(dmChannels), directory, userId).Ok?
      ensures dmChannels == CacheAfter(old(dmChannels), directory, userId)
      ensures outbox == if !isSent then old(outbox)
                        else old(outbox) + [Post(ChannelLookup(old(dmChannels), directory, userId).value,
                                                 PingText(summary, minutesUntil, pingCount, phrase))]
    {
      var channel := GetDmChannelId(userId, directory);
      if channel.Err? {
        return false;
      }
      var timeText: string;
      if minutesUntil > 0 {
        timeText := SoonOpening + (NatToString(minutesUntil) + MinuteWord(minutesUntil));
      } else if minutesUntil == 0 {
        timeText := "is starting NOW";
      } else {
        timeText := LateOpening + (NatToString(-minutesUntil) + (MinuteWord(-minutesUntil) + " ago"));
      }
      var body := ")\n> " + Bold(summary) + " " + timeText + "\nReply " + Code(phrase + " for " + summary)
        + " to stop pinging.";
      var message := PingOpening + (IntToString(pingCount) + body);
      PingTextShape(summary, minutesUntil, pingCount, phrase);
      outbox := outbox + [Post(channel.value, message)];
      return true;
    }

    /** send_digest */
    method SendDigest(userId: string, header: string, meetings: seq<DigestEntry>, currentTime: string,
                      targetDay: string, directory: map<string, string>)
      returns (isSent: bool)
      requires Valid()
      modifies this`dmChannels, this`openedFor, this`outbox
      ensures Valid()
      ensures isSent == ChannelLookup(old(dmChannels), directory, userId).Ok?
      ensures dmChannels == CacheAfter(old(dmChannels), directory, userId)
      ensures outbox == if !isSent then old(outbox)
                        else old(outbox) + [Post(ChannelLookup(old(dmChannels), directory, userId).value,
                                                 DigestText(header, meetings, currentTime, targetDay))]
    {
      var channel := GetDmChannelId(userId, directory);
      if channel.Err? {
        return false;
      }
      var text := ComposeDigest(header, meetings, currentTime, targetDay);
      outbox := outbox + [Post(channel.value, text)];
      return true;
    }
  }
  /** conversations_open is called at most once per user: the users it was
      called for repeat none. */
  lemma OpenedAtMostOnce(client: SlackClient)
    requires client.Valid()
    ensures Distinct(client.openedFor)
  {
    assert |Elems(client.openedFor)| == |client.dmChannels.Keys|;
    CardDistinct(client.openedFor);
  }
}
