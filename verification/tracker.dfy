/** The per-user reminder engine: an insertion-ordered table from event id
    to PingState, merged with calendar snapshots, scanned for meetings due a
    reminder, updated when a reminder is sent or a meeting is confirmed, and
    garbage-collected.

    The specification is stated on the value `Table(keys, entries)`: `keys`
    lists the tracked ids in dict insertion order, `entries` maps each to its
    PingState. The class MeetingTracker updates the same two fields in place
    and each of its methods is proved to leave exactly the table that the
    corresponding function computes. */
module Tracker {
  import opened Wrappers
  import opened Models
  import opened Seqs
  import opened Text

  /** A meeting that started less than this long ago is still pinged. */
  const GraceSeconds := 10 * 60
  /** Entries whose meeting ended longer ago than this are dropped. */
  const RetentionSeconds := 30 * 60

  datatype Table = Table(keys: seq<string>, entries: map<string, PingState>)

  /** Keys are listed once each, the list and the map agree, and every key
      is its entry's event id. */
  ghost predicate WellFormed(t: Table) {
    && Distinct(t.keys)
    && (forall k :: k in t.keys <==> k in t.entries)
    && (forall k | k in t.entries :: t.entries[k].meeting.eventId == k)
  }

  /** The ids of a snapshot, in snapshot order. */
  function Ids(meetings: seq<Meeting>): (r: seq<string>)
    ensures |r| == |meetings|
    ensures forall i :: 0 <= i < |meetings| ==> r[i] == meetings[i].eventId
  {
    seq(|meetings|, i requires 0 <= i < |meetings| => meetings[i].eventId)
  }

  // ---------------------------------------------------------------------
  // update_meetings

  /** First pass of update_meetings: every snapshot meeting whose id is not
      tracked yet gets a fresh entry, appended in snapshot order. */
  function AddNew(t: Table, meetings: seq<Meeting>): Table
    decreases |meetings|
  {
    if meetings == [] then t
    else
      var prev := AddNew(t, meetings[..|meetings| - 1]);
      var m := meetings[|meetings| - 1];
      if m.eventId in prev.entries then prev
      else Table(prev.keys + [m.eventId], prev.entries[m.eventId := NewPingState(m)])
  }

  /** An entry that vanished from the snapshot after its start and is not in
      a terminal status expires. */
  predicate ShouldExpire(id: string, s: PingState, seen: seq<string>, now: int) {
    id !in seen && s.meeting.startTime < now && !IsTerminal(s.status)
  }

  function ExpireEntry(id: string, s: PingState, seen: seq<string>, now: int): PingState {
    if ShouldExpire(id, s, seen, now) then s.(status := Expired) else s
  }

  /** Second pass of update_meetings. */
  function ExpireVanished(t: Table, seen: seq<string>, now: int): Table {
    Table(t.keys, map k | k in t.entries :: ExpireEntry(k, t.entries[k], seen, now))
  }

  /** The table update_meetings leaves. */
  function Merge(t: Table, meetings: seq<Meeting>, now: int): Table {
    ExpireVanished(AddNew(t, meetings), Ids(meetings), now)
  }

  /** What the first pass adds and keeps. */
  lemma {:induction false} AddNewShape(t: Table, meetings: seq<Meeting>)
    requires WellFormed(t)
    ensures var r := AddNew(t, meetings);
      && WellFormed(r)
      && |t.keys| <= |r.keys| && r.keys[..|t.keys|] == t.keys
      && (forall k :: k in r.entries <==> k in t.entries || k in Ids(meetings))
      && (forall k | k in t.entries :: r.entries[k] == t.entries[k])
    decreases |meetings|
  {
    if meetings != [] {
      var init, m := meetings[..|meetings| - 1], meetings[|meetings| - 1];
      AddNewShape(t, init);
      var prev := AddNew(t, init);
      assert Ids(meetings) == Ids(init) + [m.eventId];
      if m.eventId !in prev.entries {
        var r := AddNew(t, meetings);
        assert r.keys == prev.keys + [m.eventId];
        assert r.keys[..|t.keys|] == prev.keys[..|t.keys|];
        assert m.eventId !in prev.keys;
      }
    }
  }

  /** The first pass appends new ids in the order of their first appearance
      in the snapshot. */
  lemma {:induction false} AddNewOrder(t: Table, meetings: seq<Meeting>)
    requires WellFormed(t)
    ensures var r := AddNew(t, meetings);
      |t.keys| <= |r.keys| && InOrderOf(r.keys[|t.keys|..], Ids(meetings))
    decreases |meetings|
  {
    if meetings == [] {
      assert AddNew(t, meetings).keys[|t.keys|..] == [];
    } else {
      var init, m := meetings[..|meetings| - 1], meetings[|meetings| - 1];
      AddNewOrder(t, init);
      assert meetings == init + [m];
      AddNewOrderStep(t, init, m);
    }
  }

  /** One snapshot meeting more keeps the appended ids in snapshot order. */
  lemma AddNewOrderStep(t: Table, init: seq<Meeting>, m: Meeting)
    requires WellFormed(t)
    requires |t.keys| <= |AddNew(t, init).keys| && InOrderOf(AddNew(t, init).keys[|t.keys|..], Ids(init))
    ensures var r := AddNew(t, init + [m]);
      |t.keys| <= |r.keys| && InOrderOf(r.keys[|t.keys|..], Ids(init + [m]))
  {
    var meetings := init + [m];
    var prev := AddNew(t, init);
    if m.eventId !in prev.entries {
      AddNewOrderFresh(t, init, m);
    } else {
      assert meetings[..|meetings| - 1] == init;
      assert AddNew(t, meetings) == prev;
      assert Ids(meetings) == Ids(init) + [m.eventId];
      InOrderGrow(prev.keys[|t.keys|..], Ids(init), m.eventId);
    }
  }

  /** The step of AddNewOrderStep that appends a fresh id. */
  lemma AddNewOrderFresh(t: Table, init: seq<Meeting>, m: Meeting)
    requires WellFormed(t)
    requires |t.keys| <= |AddNew(t, init).keys| && InOrderOf(AddNew(t, init).keys[|t.keys|..], Ids(init))
    requires m.eventId !in AddNew(t, init).entries
    ensures var r := AddNew(t, init + [m]);
      |t.keys| <= |r.keys| && r.keys[|t.keys|..] == AddNew(t, init).keys[|t.keys|..] + [m.eventId]
      && InOrderOf(r.keys[|t.keys|..], Ids(init + [m]))
  {
    var meetings := init + [m];
    assert meetings[..|meetings| - 1] == init;
    var prev := AddNew(t, init);
    var ids := Ids(init);
    assert Ids(meetings) == ids + [m.eventId];
    var added := prev.keys[|t.keys|..];
    var r := AddNew(t, meetings);
    assert r.keys == prev.keys + [m.eventId];
    assert r.keys[|t.keys|..] == added + [m.eventId];
    AddNewShape(t, init);
    assert m.eventId !in ids;
    InOrderExtend(added, ids, m.eventId, true);
  }

  /** A new entry is a fresh record of the first snapshot meeting with its
      id. */
  lemma {:induction false} AddNewFresh(t: Table, meetings: seq<Meeting>)
    requires WellFormed(t)
    ensures var r := AddNew(t, meetings);
      forall k | k in r.entries && k !in t.entries ::
        k in Ids(meetings) && r.entries[k] == NewPingState(meetings[IndexOf(Ids(meetings), k)])
    decreases |meetings|
  {
    if meetings != [] {
      var init, m := meetings[..|meetings| - 1], meetings[|meetings| - 1];
      AddNewFresh(t, init);
      assert meetings == init + [m];
      AddNewFreshStep(t, init, m);
    }
  }

  /** One snapshot meeting more: the earlier new entries keep their
      positions in the snapshot, and the meeting's own id, if new, is taken
      from it. */
  lemma AddNewFreshStep(t: Table, init: seq<Meeting>, m: Meeting)
    requires WellFormed(t)
    requires var r := AddNew(t, init);
      forall k | k in r.entries && k !in t.entries ::
        k in Ids(init) && r.entries[k] == NewPingState(init[IndexOf(Ids(init), k)])
    ensures var r := AddNew(t, init + [m]);
      forall k | k in r.entries && k !in t.entries ::
        k in Ids(init + [m]) && r.entries[k] == NewPingState((init + [m])[IndexOf(Ids(init + [m]), k)])
  {
    var meetings := init + [m];
    assert meetings[..|meetings| - 1] == init;
    var prev := AddNew(t, init);
    var ids, ids' := Ids(init), Ids(meetings);
    assert ids' == ids + [m.eventId];
    forall k | k in ids
      ensures IndexOf(ids', k) == IndexOf(ids, k)
    {
      IndexOfAppend(ids, m.eventId, k);
    }
    if m.eventId !in prev.entries {
      AddNewShape(t, init);
      assert m.eventId !in ids;
      IndexOfLast(ids, m.eventId);
    }
  }

  /** update_meetings: no entry is removed and the old order is a prefix of
      the new; the tracked ids become the old ids plus the snapshot ids; a new
      entry is a PENDING record of the id's first snapshot meeting, appended
      in snapshot order; an old entry keeps its meeting snapshot, counters and
      flag, and its status changes only by the expiry rule. */
  lemma MergeSpec(t: Table, meetings: seq<Meeting>, now: int)
    requires WellFormed(t)
    ensures var r := Merge(t, meetings, now);
      && WellFormed(r)
      && |t.keys| <= |r.keys| && r.keys[..|t.keys|] == t.keys
      && InOrderOf(r.keys[|t.keys|..], Ids(meetings))
      && (forall k :: k in r.entries <==> k in t.entries || k in Ids(meetings))
      && (forall k | k in r.entries && k !in t.entries ::
            r.entries[k] == NewPingState(meetings[IndexOf(Ids(meetings), k)]))
      && (forall k | k in t.entries ::
            && r.entries[k].meeting == t.entries[k].meeting
            && r.entries[k].pingCount == t.entries[k].pingCount
            && r.entries[k].lastPingAt == t.entries[k].lastPingAt
            && r.entries[k].isConfirmed == t.entries[k].isConfirmed
            && r.entries[k].status ==
                 if ShouldExpire(k, t.entries[k], Ids(meetings), now) then Expired
                 else t.entries[k].status)
  {
    AddNewShape(t, meetings);
    AddNewOrder(t, meetings);
    AddNewFresh(t, meetings);
  }

  /** One step of update_meetings' first loop. */
  lemma AddNewStep(t: Table, meetings: seq<Meeting>, i: int)
    requires 0 <= i < |meetings|
    ensures var prev, m := AddNew(t, meetings[..i]), meetings[i];
      AddNew(t, meetings[..i + 1]) ==
        if m.eventId in prev.entries then prev
        else Table(prev.keys + [m.eventId], prev.entries[m.eventId := NewPingState(m)])
  {
    assert meetings[..i + 1][..i] == meetings[..i];
  }

  function ExpireStep(seen: seq<string>, now: int): (string, PingState) -> PingState {
    (k, s) => ExpireEntry(k, s, seen, now)
  }

  /** One step of update_meetings' second loop. */
  lemma ExpireScanStep(t: Table, j: int, seen: seq<string>, now: int)
    requires WellFormed(t) && 0 <= j < |t.keys|
    ensures var k, step := t.keys[j], ExpireStep(seen, now);
      && k in t.entries
      && ApplyEach(t.entries, t.keys[..j], step).Keys == t.entries.Keys
      && ApplyEach(t.entries, t.keys[..j], step)[k] == t.entries[k]
      && ApplyEach(t.entries, t.keys[..j + 1], step) ==
           ApplyEach(t.entries, t.keys[..j], step)[k := ExpireEntry(k, t.entries[k], seen, now)]
  {
    var k, step := t.keys[j], ExpireStep(seen, now);
    ScanStep(t, j, step);
    assert t.keys[..j + 1] == t.keys[..j] + [k];
    ApplyEachAppend(t.entries, t.keys[..j], k, step);
  }

  /** A pass over every key leaves ExpireVanished's table. */
  lemma ExpireScanEnd(t: Table, seen: seq<string>, now: int)
    requires WellFormed(t)
    ensures ApplyEach(t.entries, t.keys, ExpireStep(seen, now)) == ExpireVanished(t, seen, now).entries
  {
    ApplyEachSpec(t.entries, t.keys, ExpireStep(seen, now));
  }

  /** An expired entry is exactly one that vanished after its start while
      still PENDING or PINGING. */
  lemma ExpiryRule(t: Table, meetings: seq<Meeting>, now: int, k: string)
    requires WellFormed(t) && k in t.entries
    ensures var r := Merge(t, meetings, now);
      k in r.entries &&
      var s, s' := t.entries[k], r.entries[k];
      (s'.status == Expired && s.status != Expired) <==>
      (k !in Ids(meetings) && s.meeting.startTime < now && (s.status == Pending || s.status == Pinging))
  {
    MergeSpec(t, meetings, now);
  }

  /** A table that already tracks every id of a snapshot gains nothing from
      the first pass. */
  lemma {:induction false} AddNewNothingNew(t: Table, meetings: seq<Meeting>)
    requires forall m | m in meetings :: m.eventId in t.entries
    ensures AddNew(t, meetings) == t
    decreases |meetings|
  {
    if meetings != [] {
      AddNewNothingNew(t, meetings[..|meetings| - 1]);
      assert meetings[|meetings| - 1] in meetings;
    }
  }

  /** Expiring twice is expiring once. */
  lemma ExpireSettles(t: Table, seen: seq<string>, now: int)
    ensures ExpireVanished(ExpireVanished(t, seen, now), seen, now) == ExpireVanished(t, seen, now)
  {
    var r := ExpireVanished(t, seen, now);
    assert forall k | k in r.entries :: !ShouldExpire(k, r.entries[k], seen, now);
  }

  /** Merging the same snapshot again at the same instant changes nothing. */
  lemma MergeIdempotent(t: Table, meetings: seq<Meeting>, now: int)
    requires WellFormed(t)
    ensures Merge(Merge(t, meetings, now), meetings, now) == Merge(t, meetings, now)
  {
    var r := Merge(t, meetings, now);
    forall m | m in meetings
      ensures m.eventId in r.entries
    {
      var i :| 0 <= i < |meetings| && meetings[i] == m;
      assert Ids(meetings)[i] == m.eventId;
      AddNewShape(t, meetings);
    }
    AddNewNothingNew(r, meetings);
    ExpireSettles(AddNew(t, meetings), Ids(meetings), now);
  }

  // ---------------------------------------------------------------------
  // get_meetings_to_ping

  /** In the lead window (starts within `lead` seconds, or already started),
      or started less than ten minutes ago. */
  predicate InPingWindow(s: PingState, now: int, lead: int) {
    var untilStart := s.meeting.startTime - now;
    untilStart <= lead || (untilStart < 0 && -untilStart < GraceSeconds)
  }

  /** The scan moves this entry to PINGING. */
  predicate Advances(s: PingState, now: int, lead: int) {
    !IsTerminal(s.status) && InPingWindow(s, now, lead)
  }

  /** The last reminder went out less than `interval` seconds ago. */
  predicate RateLimited(s: PingState, now: int, interval: int) {
    s.lastPingAt.Some? && now - s.lastPingAt.value < interval
  }

  predicate IsDue(s: PingState, now: int, lead: int, interval: int) {
    Advances(s, now, lead) && !RateLimited(s, now, interval)
  }

  function Advance(s: PingState, now: int, lead: int): PingState {
    if Advances(s, now, lead) then s.(status := Pinging) else s
  }

  /** The table the scan leaves. */
  function AdvanceAll(t: Table, now: int, lead: int): Table {
    Table(t.keys, map k | k in t.entries :: Advance(t.entries[k], now, lead))
  }

  function AdvanceStep(now: int, lead: int): (string, PingState) -> PingState {
    (k, s) => Advance(s, now, lead)
  }

  /** Before a scan over the keys reaches position i, the entry there is
      untouched. */
  lemma ScanStep(t: Table, i: int, step: (string, PingState) -> PingState)
    requires WellFormed(t) && 0 <= i < |t.keys|
    ensures t.keys[i] in t.entries
    ensures forall k | k in t.keys[..i] :: k in t.entries
    ensures ApplyEach(t.entries, t.keys[..i], step).Keys == t.entries.Keys
    ensures ApplyEach(t.entries, t.keys[..i], step)[t.keys[i]] == t.entries[t.keys[i]]
  {
    assert t.keys[i] !in t.keys[..i];
    ApplyEachSpec(t.entries, t.keys[..i], step);
  }

  function DueFilter(entries: map<string, PingState>, now: int, lead: int, interval: int): string -> bool {
    k => k in entries && IsDue(entries[k], now, lead, interval)
  }

  /** The ids the scan returns, in table order. */
  function DueKeys(t: Table, now: int, lead: int, interval: int): seq<string> {
    Filter(t.keys, DueFilter(t.entries, now, lead, interval))
  }

  /** The records the scan returns for the keys `ks`: each due entry, already
      moved to PINGING. */
  function DueRecords(t: Table, ks: seq<string>, now: int, lead: int, interval: int): seq<PingState>
    requires forall k | k in ks :: k in t.entries
    decreases |ks|
  {
    if ks == [] then []
    else
      var prev := DueRecords(t, ks[..|ks| - 1], now, lead, interval);
      var s := t.entries[ks[|ks| - 1]];
      if IsDue(s, now, lead, interval) then prev + [Advance(s, now, lead)] else prev
  }

  lemma DueRecordsAppend(t: Table, ks: seq<string>, k: string, now: int, lead: int, interval: int)
    requires forall x | x in ks :: x in t.entries
    requires k in t.entries
    ensures var s := t.entries[k];
      DueRecords(t, ks + [k], now, lead, interval) ==
        if IsDue(s, now, lead, interval) then DueRecords(t, ks, now, lead, interval) + [Advance(s, now, lead)]
        else DueRecords(t, ks, now, lead, interval)
  {
    assert (ks + [k])[..|ks|] == ks;
  }

  /** The n-th record returned belongs to the n-th selected id. */
  lemma {:induction false} DueRecordsSpec(t: Table, ks: seq<string>, now: int, lead: int, interval: int)
    requires forall k | k in ks :: k in t.entries
    ensures var due, sel := DueRecords(t, ks, now, lead, interval), Filter(ks, DueFilter(t.entries, now, lead, interval));
      && |due| == |sel|
      && forall n | 0 <= n < |due| :: sel[n] in t.entries && due[n] == Advance(t.entries[sel[n]], now, lead)
    decreases |ks|
  {
    if ks != [] {
      var init := ks[..|ks| - 1];
      DueRecordsSpec(t, init, now, lead, interval);
    }
  }

  /** One step of the scan: the entry at position i is still untouched, and
      both the table and the returned records grow by that entry alone. */
  lemma AdvanceScanStep(t: Table, i: int, now: int, lead: int, interval: int)
    requires WellFormed(t) && 0 <= i < |t.keys|
    ensures var k, step := t.keys[i], AdvanceStep(now, lead);
      && k in t.entries
      && (forall x | x in t.keys[..i] :: x in t.entries)
      && ApplyEach(t.entries, t.keys[..i], step).Keys == t.entries.Keys
      && ApplyEach(t.entries, t.keys[..i], step)[k] == t.entries[k]
      && ApplyEach(t.entries, t.keys[..i + 1], step) ==
           ApplyEach(t.entries, t.keys[..i], step)[k := Advance(t.entries[k], now, lead)]
      && DueRecords(t, t.keys[..i + 1], now, lead, interval) ==
           if IsDue(t.entries[k], now, lead, interval)
           then DueRecords(t, t.keys[..i], now, lead, interval) + [Advance(t.entries[k], now, lead)]
           else DueRecords(t, t.keys[..i], now, lead, interval)
  {
    var k, step := t.keys[i], AdvanceStep(now, lead);
    ScanStep(t, i, step);
    assert t.keys[..i + 1] == t.keys[..i] + [k];
    ApplyEachAppend(t.entries, t.keys[..i], k, step);
    DueRecordsAppend(t, t.keys[..i], k, now, lead, interval);
  }

  /** A scan over every key leaves AdvanceAll's table and returns, in order,
      the advanced records of the selected ids. */
  lemma AdvanceScanEnd(t: Table, now: int, lead: int, interval: int)
    requires WellFormed(t)
    ensures var r := ApplyEach(t.entries, t.keys, AdvanceStep(now, lead));
      && r == AdvanceAll(t, now, lead).entries
      && WellFormed(Table(t.keys, r))
      && var ks, due := DueKeys(t, now, lead, interval), DueRecords(t, t.keys, now, lead, interval);
         |due| == |ks| && forall n | 0 <= n < |due| :: ks[n] in r && due[n] == r[ks[n]]
  {
    ApplyEachSpec(t.entries, t.keys, AdvanceStep(now, lead));
    DueRecordsSpec(t, t.keys, now, lead, interval);
    AdvanceSpec(t, now, lead);
  }

  /** get_meetings_to_ping selects exactly the entries that are not
      CONFIRMED/EXPIRED, are in the ping window and are not rate-limited, in
      table order and once each; the selected records already carry status
      PINGING. */
  lemma SelectionSpec(t: Table, now: int, lead: int, interval: int)
    requires WellFormed(t)
    ensures var due := DueKeys(t, now, lead, interval);
      && (forall k :: k in due <==>
            k in t.entries && !IsTerminal(t.entries[k].status)
            && InPingWindow(t.entries[k], now, lead)
            && !RateLimited(t.entries[k], now, interval))
      && InOrderOf(due, t.keys) && Distinct(due)
      && (forall k | k in due :: AdvanceAll(t, now, lead).entries[k].status == Pinging)
  {
    FilterMembers(t.keys, DueFilter(t.entries, now, lead, interval));
    FilterInOrder(t.keys, DueFilter(t.entries, now, lead, interval));
  }

  /** The scan's side effect: every in-window entry that is not terminal
      becomes PINGING, rate-limited or not; every other entry, and every
      field but the status, is untouched. */
  lemma AdvanceSpec(t: Table, now: int, lead: int)
    requires WellFormed(t)
    ensures var r := AdvanceAll(t, now, lead);
      && WellFormed(r) && r.keys == t.keys && r.entries.Keys == t.entries.Keys
      && (forall k | k in t.entries ::
            && r.entries[k] == t.entries[k].(status := r.entries[k].status)
            && (r.entries[k].status == Pinging <==>
                  t.entries[k].status == Pinging
                  || (t.entries[k].status == Pending && InPingWindow(t.entries[k], now, lead)))
            && (!InPingWindow(t.entries[k], now, lead) ==> r.entries[k] == t.entries[k]))
  {
  }

  /** With a non-negative lead the grace clause adds nothing: every meeting
      that already started is in the window. */
  lemma GraceSubsumed(s: PingState, now: int, lead: int)
    requires lead >= 0
    ensures InPingWindow(s, now, lead) <==> s.meeting.startTime - now <= lead
    ensures s.meeting.startTime < now ==> InPingWindow(s, now, lead)
  {
  }

  /** With a negative lead the grace clause is what keeps a meeting that
      started less than ten minutes ago in the window. */
  lemma GraceMatters(s: PingState, now: int, lead: int)
    requires lead < 0 && lead < s.meeting.startTime - now < 0
    requires now - s.meeting.startTime < GraceSeconds
    ensures InPingWindow(s, now, lead)
  {
  }

  // ---------------------------------------------------------------------
  // mark_pinged

  function MarkPingedTable(t: Table, eventId: string, now: int): Table {
    if eventId in t.entries then
      var s := t.entries[eventId];
      Table(t.keys, t.entries[eventId := s.(lastPingAt := Some(now), pingCount := s.pingCount + 1)])
    else t
  }

  /** mark_pinged: a known id gets last_ping_at = now and one more ping;
      its status and every other entry are unchanged; an unknown id changes
      nothing. */
  lemma MarkPingedSpec(t: Table, eventId: string, now: int)
    requires WellFormed(t)
    ensures var r := MarkPingedTable(t, eventId, now);
      && WellFormed(r) && r.keys == t.keys && r.entries.Keys == t.entries.Keys
      && (eventId in t.entries ==>
            && r.entries[eventId].lastPingAt == Some(now)
            && r.entries[eventId].pingCount == t.entries[eventId].pingCount + 1
            && r.entries[eventId].status == t.entries[eventId].status
            && r.entries[eventId].meeting == t.entries[eventId].meeting)
      && (forall k | k in t.entries && k != eventId :: r.entries[k] == t.entries[k])
      && (eventId !in t.entries ==> r == t)
  {
  }

  // ---------------------------------------------------------------------
  // confirm_by_name and get_pinging_summaries

  function PingingFilter(entries: map<string, PingState>): string -> bool {
    k => k in entries && entries[k].status == Pinging
  }

  /** The PINGING entries' ids, in table order. */
  function PingingKeys(t: Table): seq<string> {
    Filter(t.keys, PingingFilter(t.entries))
  }

  lemma PingingKeysSpec(t: Table)
    requires WellFormed(t)
    ensures forall k :: k in PingingKeys(t) <==> k in t.entries && t.entries[k].status == Pinging
    ensures InOrderOf(PingingKeys(t), t.keys) && Distinct(PingingKeys(t))
  {
    FilterMembers(t.keys, PingingFilter(t.entries));
    FilterInOrder(t.keys, PingingFilter(t.entries));
  }

  predicate SummaryContains(s: PingState, fragment: string) {
    Contains(Lower(s.meeting.summary), fragment)
  }

  /** The first of `ks` whose summary, lowercased, contains `fragment`. */
  function FirstContaining(ks: seq<string>, entries: map<string, PingState>, fragment: string): (r: Option<string>)
    ensures r.Some? ==> r.value in ks && r.value in entries
  {
    if ks == [] then None
    else if ks[0] in entries && SummaryContains(entries[ks[0]], fragment) then Some(ks[0])
    else FirstContaining(ks[1..], entries, fragment)
  }

  lemma {:induction false} FirstContainingSpec(ks: seq<string>, entries: map<string, PingState>, fragment: string)
    requires forall k | k in ks :: k in entries
    ensures var r := FirstContaining(ks, entries, fragment);
      && (r.None? <==> forall k | k in ks :: !SummaryContains(entries[k], fragment))
      && (r.Some? ==>
            && SummaryContains(entries[r.value], fragment)
            && forall j | 0 <= j < IndexOf(ks, r.value) :: !SummaryContains(entries[ks[j]], fragment))
    decreases |ks|
  {
    if ks != [] && !SummaryContains(entries[ks[0]], fragment) {
      FirstContainingSpec(ks[1..], entries, fragment);
      var r := FirstContaining(ks[1..], entries, fragment);
      if r.Some? {
        assert IndexOf(ks, r.value) == 1 + IndexOf(ks[1..], r.value);
        forall j | 0 <= j < IndexOf(ks, r.value)
          ensures !SummaryContains(entries[ks[j]], fragment)
        {
          if j > 0 {
            assert ks[j] == ks[1..][j - 1];
          }
        }
      }
      assert forall k | k in ks :: k == ks[0] || k in ks[1..];
    }
  }

  /** The id confirm_by_name confirms for an already lowered and stripped
      fragment. */
  function FirstMatch(t: Table, fragment: string): (r: Option<string>)
    ensures r.Some? ==> r.value in t.entries
  {
    FirstContaining(PingingKeys(t), t.entries, fragment)
  }

  /** confirm_by_name: the confirmed entry is PINGING, its lowercased summary
      contains the fragment, and no entry before it in table order is both;
      there is no result exactly when no PINGING entry's summary contains the
      fragment (in particular when nothing is PINGING). */
  lemma ConfirmSpec(t: Table, fragment: string)
    requires WellFormed(t)
    ensures var r := FirstMatch(t, fragment);
      && (r.None? <==> forall k | k in t.entries ::
            !(t.entries[k].status == Pinging && SummaryContains(t.entries[k], fragment)))
      && (r.Some? ==>
            && r.value in t.entries
            && t.entries[r.value].status == Pinging
            && SummaryContains(t.entries[r.value], fragment)
            && forall j | 0 <= j < IndexOf(t.keys, r.value) ::
                 !(t.entries[t.keys[j]].status == Pinging && SummaryContains(t.entries[t.keys[j]], fragment)))
  {
    PingingKeysSpec(t);
    var pk := PingingKeys(t);
    FirstContainingSpec(pk, t.entries, fragment);
    var r := FirstMatch(t, fragment);
    if r.Some? {
      var k := r.value;
      forall j | 0 <= j < IndexOf(t.keys, k)
        ensures !(t.entries[t.keys[j]].status == Pinging && SummaryContains(t.entries[t.keys[j]], fragment))
      {
        var kj := t.keys[j];
        assert IndexOf(t.keys, kj) == j;
      }
    }
  }

  /** An empty fragment confirms the first PINGING entry in table order. */
  lemma ConfirmEmptyFragment(t: Table)
    requires WellFormed(t)
    ensures PingingKeys(t) == [] ==> FirstMatch(t, "") == None
    ensures PingingKeys(t) != [] ==> FirstMatch(t, "") == Some(PingingKeys(t)[0])
  {
    PingingKeysSpec(t);
    if PingingKeys(t) != [] {
      ContainsEmpty(Lower(t.entries[PingingKeys(t)[0]].meeting.summary));
    }
  }

  /** The table confirm_by_name leaves. */
  function ConfirmTable(t: Table, fragment: string): Table {
    match FirstMatch(t, fragment)
    case None => t
    case Some(k) =>
      Table(t.keys, t.entries[k := t.entries[k].(status := Confirmed, isConfirmed := true)])
  }

  /** What confirm_by_name returns: the confirmed meeting's summary. */
  function ConfirmResult(t: Table, fragment: string): Option<string> {
    match FirstMatch(t, fragment)
    case None => None
    case Some(k) => Some(t.entries[k].meeting.summary)
  }

  /** One step of confirm_by_name's first loop. */
  lemma PingingScanStep(t: Table, i: int)
    requires WellFormed(t) && 0 <= i < |t.keys|
    ensures var k := t.keys[i];
      && k in t.entries
      && Filter(t.keys[..i + 1], PingingFilter(t.entries)) ==
           if t.entries[k].status == Pinging then Filter(t.keys[..i], PingingFilter(t.entries)) + [k]
           else Filter(t.keys[..i], PingingFilter(t.entries))
  {
    FilterPrefixStep(t.keys, i, PingingFilter(t.entries));
  }

  /** One step of confirm_by_name's second loop. */
  lemma ConfirmScanStep(t: Table, fragment: string, j: int)
    requires WellFormed(t) && 0 <= j < |PingingKeys(t)|
    ensures var ps := PingingKeys(t);
      && ps[j] in t.entries
      && FirstContaining(ps[j..], t.entries, fragment) ==
           if SummaryContains(t.entries[ps[j]], fragment) then Some(ps[j])
           else FirstContaining(ps[j + 1..], t.entries, fragment)
  {
    PingingKeysSpec(t);
    var ps := PingingKeys(t);
    assert ps[j] in ps;
    assert ps[j..][1..] == ps[j + 1..];
  }

  /** The table and the result when the fragment matches `k`. */
  lemma ConfirmHit(t: Table, fragment: string, k: string)
    requires WellFormed(t) && FirstMatch(t, fragment) == Some(k)
    ensures k in t.entries
    ensures ConfirmTable(t, fragment) == Table(t.keys, t.entries[k := t.entries[k].(status := Confirmed, isConfirmed := true)])
    ensures ConfirmResult(t, fragment) == Some(t.entries[k].meeting.summary)
    ensures WellFormed(ConfirmTable(t, fragment))
  {
  }

  /** A confirmation turns exactly the matched entry CONFIRMED with the flag
      set, changes nothing else, and that entry can never be confirmed
      again. */
  lemma ConfirmEffect(t: Table, fragment: string, again: string)
    requires WellFormed(t)
    ensures var r := ConfirmTable(t, fragment);
      && WellFormed(r) && r.keys == t.keys && r.entries.Keys == t.entries.Keys
      && (FirstMatch(t, fragment).None? ==> r == t && ConfirmResult(t, fragment).None?)
      && (FirstMatch(t, fragment).Some? ==>
            var k := FirstMatch(t, fragment).value;
            && r.entries[k] == t.entries[k].(status := Confirmed, isConfirmed := true)
            && ConfirmResult(t, fragment) == Some(t.entries[k].meeting.summary)
            && (forall k' | k' in t.entries && k' != k :: r.entries[k'] == t.entries[k'])
            && FirstMatch(r, again) != Some(k))
  {
    ConfirmSpec(t, fragment);
    var r := ConfirmTable(t, fragment);
    if FirstMatch(t, fragment).Some? {
      assert WellFormed(r);
      ConfirmSpec(r, again);
    }
  }

  /** get_pinging_summaries: the summaries of the PINGING entries, in table
      order. */
  function PingingSummaries(t: Table): (r: seq<string>)
    requires WellFormed(t)
    ensures |r| == |PingingKeys(t)|
    ensures forall i | 0 <= i < |r| ::
      PingingKeys(t)[i] in t.entries && t.entries[PingingKeys(t)[i]].status == Pinging
      && r[i] == t.entries[PingingKeys(t)[i]].meeting.summary
  {
    PingingKeysSpec(t);
    var pk := PingingKeys(t);
    seq(|pk|, i requires 0 <= i < |pk| => t.entries[pk[i]].meeting.summary)
  }

  /** Every PINGING meeting's summary is listed. */
  lemma PingingSummariesCover(t: Table)
    requires WellFormed(t)
    ensures forall k | k in t.entries && t.entries[k].status == Pinging ::
              t.entries[k].meeting.summary in PingingSummaries(t)
  {
    PingingKeysSpec(t);
    var r := PingingSummaries(t);
    forall k | k in t.entries && t.entries[k].status == Pinging
      ensures t.entries[k].meeting.summary in r
    {
      var j := IndexOf(PingingKeys(t), k);
      assert r[j] == t.entries[k].meeting.summary;
    }
  }

  // ---------------------------------------------------------------------
  // cleanup_expired and active_count

  predicate IsStale(s: PingState, now: int) {
    s.meeting.endTime < now - RetentionSeconds
  }

  function StaleFilter(entries: map<string, PingState>, now: int): string -> bool {
    k => k in entries && IsStale(entries[k], now)
  }

  function Excluding(gone: set<string>): string -> bool {
    k => k !in gone
  }

  function StaleSet(t: Table, now: int): set<string> {
    set k | k in t.entries && IsStale(t.entries[k], now)
  }

  /** The table cleanup_expired leaves. */
  function CleanupTable(t: Table, now: int): Table {
    var gone := StaleSet(t, now);
    Table(Filter(t.keys, Excluding(gone)), t.entries - gone)
  }

  lemma {:induction false} ExcludingTwice(s: seq<string>, a: set<string>, b: set<string>)
    ensures Filter(Filter(s, Excluding(a)), Excluding(b)) == Filter(s, Excluding(a + b))
    decreases |s|
  {
    if s != [] {
      var init, last := s[..|s| - 1], s[|s| - 1];
      ExcludingTwice(init, a, b);
      if last !in a {
        FilterAppend(Filter(init, Excluding(a)), last, Excluding(b));
      }
    }
  }

  /** Excluding nothing keeps every element. */
  lemma {:induction false} ExcludingNothing(s: seq<string>)
    ensures Filter(s, Excluding({})) == s
    decreases |s|
  {
    if s != [] {
      ExcludingNothing(s[..|s| - 1]);
    }
  }

  /** cleanup_expired removes exactly the entries whose meeting ended more
      than thirty minutes before now, whatever their status, and leaves the
      others and their order unchanged. */
  lemma CleanupSpec(t: Table, now: int)
    requires WellFormed(t)
    ensures var r := CleanupTable(t, now);
      && WellFormed(r)
      && (forall k :: k in r.entries <==> k in t.entries && t.entries[k].meeting.endTime >= now - RetentionSeconds)
      && (forall k | k in r.entries :: r.entries[k] == t.entries[k])
      && InOrderOf(r.keys, t.keys)
  {
    var gone := StaleSet(t, now);
    FilterMembers(t.keys, Excluding(gone));
    FilterInOrder(t.keys, Excluding(gone));
  }

  predicate IsActive(s: PingState) {
    s.status == Pending || s.status == Pinging
  }

  function ActiveFilter(entries: map<string, PingState>): string -> bool {
    k => k in entries && IsActive(entries[k])
  }

  /** active_count. */
  function CountActive(t: Table): nat {
    |Filter(t.keys, ActiveFilter(t.entries))|
  }

  /** active_count is the number of tracked meetings that are PENDING or
      PINGING. */
  lemma ActiveCountIsCardinality(t: Table)
    requires WellFormed(t)
    ensures CountActive(t) == |set k | k in t.entries && IsActive(t.entries[k])|
    ensures CountActive(t) <= |t.keys|
  {
    var f := Filter(t.keys, ActiveFilter(t.entries));
    FilterMembers(t.keys, ActiveFilter(t.entries));
    FilterInOrder(t.keys, ActiveFilter(t.entries));
    DistinctCard(f);
    assert (set k | k in f) == (set k | k in t.entries && IsActive(t.entries[k]));
  }

  // ---------------------------------------------------------------------
  // The lifecycle

  /** CONFIRMED and EXPIRED are sinks: no operation changes such an entry's
      status, and the scan never selects it. */
  lemma TerminalIsSink(t: Table, k: string, meetings: seq<Meeting>, now: int, lead: int, interval: int,
                       eventId: string, fragment: string)
    requires WellFormed(t) && k in t.entries && IsTerminal(t.entries[k].status)
    ensures k in Merge(t, meetings, now).entries && Merge(t, meetings, now).entries[k].status == t.entries[k].status
    ensures AdvanceAll(t, now, lead).entries[k].status == t.entries[k].status
    ensures k !in DueKeys(t, now, lead, interval)
    ensures MarkPingedTable(t, eventId, now).entries[k].status == t.entries[k].status
    ensures ConfirmTable(t, fragment).entries[k].status == t.entries[k].status
    ensures k in CleanupTable(t, now).entries ==> CleanupTable(t, now).entries[k].status == t.entries[k].status
  {
    assert k in Merge(t, meetings, now).entries && Merge(t, meetings, now).entries[k].status == t.entries[k].status by {
      MergeSpec(t, meetings, now);
    }
    assert k !in DueKeys(t, now, lead, interval) by {
      SelectionSpec(t, now, lead, interval);
    }
    assert ConfirmTable(t, fragment).entries[k].status == t.entries[k].status by {
      ConfirmSpec(t, fragment);
    }
  }

  // ---------------------------------------------------------------------
  // The tracker object

  class MeetingTracker {
    const leadTimeMinutes: int
    const pingIntervalSeconds: int
    var keys: seq<string>
    var tracked: map<string, PingState>

    function View(): Table
      reads this
    {
      Table(keys, tracked)
    }

    ghost predicate Valid()
      reads this
    {
      WellFormed(View())
    }

    function LeadSeconds(): int {
      leadTimeMinutes * 60
    }

    constructor (settings: Settings)
      ensures Valid() && View() == Table([], map[])
      ensures leadTimeMinutes == settings.pingLeadTimeMinutes
      ensures pingIntervalSeconds == settings.pingIntervalSeconds
    {
      leadTimeMinutes := settings.pingLeadTimeMinutes;
      pingIntervalSeconds := settings.pingIntervalSeconds;
      keys := [];
      tracked := map[];
    }

    /** update_meetings */
    method UpdateMeetings(meetings: seq<Meeting>, now: int)
      requires Valid()
      modifies this
      ensures Valid()
      ensures View() == Merge(old(View()), meetings, now)
    {
      var seen := Ids(meetings);
      ghost var t := View();
      var i := 0;
      while i < |meetings|
        invariant 0 <= i <= |meetings|
        invariant View() == AddNew(t, meetings[..i])
      {
        var m := meetings[i];
        AddNewStep(t, meetings, i);
        if m.eventId !in tracked {
          keys := keys + [m.eventId];
          tracked := tracked[m.eventId := NewPingState(m)];
        }
        i := i + 1;
      }
      assert meetings[..|meetings|] == meetings;
      ghost var added := View();
      assert WellFormed(added) by { AddNewShape(t, meetings); }
      var ids := keys;
      var j := 0;
      while j < |ids|
        invariant 0 <= j <= |ids| && keys == ids
        invariant tracked == ApplyEach(added.entries, ids[..j], ExpireStep(seen, now))
      {
        var id := ids[j];
        ExpireScanStep(added, j, seen, now);
        var state := tracked[id];
        if id !in seen && state.meeting.startTime < now {
          if state.status != Confirmed && state.status != Expired {
            tracked := tracked[id := state.(status := Expired)];
          }
        }
        j := j + 1;
      }
      assert ids[..|ids|] == ids;
      ExpireScanEnd(added, seen, now);
      assert View() == Merge(t, meetings, now);
      assert WellFormed(Merge(t, meetings, now)) by { MergeSpec(t, meetings, now); }
    }

    /** One step of get_meetings_to_ping's loop: the entry for `id` moves to
        PINGING when it is not CONFIRMED/EXPIRED and is in the ping window or
        the grace period after the start; it is returned unless it was
        pinged less than the interval ago. */
    method ScanEntry(id: string, now: int, lead: int, interval: int) returns (selected: Option<PingState>)
      requires id in tracked
      modifies this`tracked
      ensures tracked == old(tracked)[id := Advance(old(tracked)[id], now, lead)]
      ensures selected == if IsDue(old(tracked)[id], now, lead, interval)
                          then Some(Advance(old(tracked)[id], now, lead)) else None
    {
      var state := tracked[id];
      selected := None;
      if state.status != Confirmed && state.status != Expired {
        var untilStart := state.meeting.startTime - now;
        var isInPingWindow := untilStart <= lead;
        var isPastStartWithinGrace := untilStart < 0 && -untilStart < GraceSeconds;
        if isInPingWindow || isPastStartWithinGrace {
          state := state.(status := Pinging);
          tracked := tracked[id := state];
          if !(state.lastPingAt.Some? && now - state.lastPingAt.value < interval) {
            selected := Some(state);
          }
          return;
        }
      }
      assert tracked == tracked[id := state];
    }

    /** get_meetings_to_ping */
    method GetMeetingsToPing(now: int) returns (due: seq<PingState>)
      requires Valid()
      modifies this`tracked
      ensures Valid()
      ensures View() == AdvanceAll(old(View()), now, LeadSeconds())
      ensures var ks := DueKeys(old(View()), now, LeadSeconds(), pingIntervalSeconds);
        |due| == |ks| && forall n | 0 <= n < |due| :: ks[n] in tracked && due[n] == tracked[ks[n]]
    {
      var lead := LeadSeconds();
      var interval := pingIntervalSeconds;
      ghost var t := View();
      var ids := keys;
      due := [];
      var i := 0;
      while i < |ids|
        invariant 0 <= i <= |ids|
        invariant tracked == ApplyEach(t.entries, ids[..i], AdvanceStep(now, lead))
        invariant due == DueRecords(t, ids[..i], now, lead, interval)
      {
        AdvanceScanStep(t, i, now, lead, interval);
        var selected := ScanEntry(ids[i], now, lead, interval);
        if selected.Some? {
          due := due + [selected.value];
        }
        i := i + 1;
      }
      assert ids[..|ids|] == ids;
      AdvanceScanEnd(t, now, lead, interval);
    }

    /** mark_pinged */
    method MarkPinged(eventId: string, now: int)
      requires Valid()
      modifies this`tracked
      ensures Valid()
      ensures View() == MarkPingedTable(old(View()), eventId, now)
    {
      ghost var t := View();
      if eventId in tracked {
        var state := tracked[eventId];
        tracked := tracked[eventId := state.(lastPingAt := Some(now), pingCount := state.pingCount + 1)];
      }
      assert View() == MarkPingedTable(t, eventId, now);
      assert WellFormed(MarkPingedTable(t, eventId, now)) by { MarkPingedSpec(t, eventId, now); }
    }

    /** The first loop of confirm_by_name: the PINGING ids in table order. */
    method PingingIds() returns (isPinging: seq<string>)
      requires Valid()
      ensures isPinging == PingingKeys(View())
    {
      ghost var t := View();
      var ids := keys;
      isPinging := [];
      var i := 0;
      while i < |ids|
        invariant 0 <= i <= |ids|
        invariant isPinging == Filter(ids[..i], PingingFilter(t.entries))
      {
        PingingScanStep(t, i);
        if tracked[ids[i]].status == Pinging {
          isPinging := isPinging + [ids[i]];
        }
        i := i + 1;
      }
      assert ids[..|ids|] == ids;
    }

    /** confirm_by_name */
    method ConfirmByName(meetingName: string) returns (r: Option<string>)
      requires Valid()
      modifies this`tracked
      ensures Valid()
      ensures View() == ConfirmTable(old(View()), Strip(Lower(meetingName)))
      ensures r == ConfirmResult(old(View()), Strip(Lower(meetingName)))
    {
      var fragment := Strip(Lower(meetingName));
      ghost var t := View();
      var isPinging := PingingIds();
      if isPinging == [] {
        assert FirstMatch(t, fragment) == None;
        return None;
      }
      var j := 0;
      while j < |isPinging|
        invariant 0 <= j <= |isPinging| && tracked == t.entries
        invariant FirstMatch(t, fragment) == FirstContaining(isPinging[j..], t.entries, fragment)
      {
        var id := isPinging[j];
        ConfirmScanStep(t, fragment, j);
        var state := tracked[id];
        if Contains(Lower(state.meeting.summary), fragment) {
          tracked := tracked[id := state.(status := Confirmed, isConfirmed := true)];
          ConfirmHit(t, fragment, id);
          assert View() == ConfirmTable(t, fragment);
          return Some(state.meeting.summary);
        }
        j := j + 1;
      }
      assert isPinging[j..] == [];
      assert FirstMatch(t, fragment) == None;
      return None;
    }

    /** get_pinging_summaries: one summary per PINGING meeting, in the
        order the meetings were first tracked, and every PINGING meeting's
        summary among them. */
    function GetPingingSummaries(): (r: seq<string>)
      reads this
      requires Valid()
      ensures |r| == |PingingKeys(View())|
      ensures forall i | 0 <= i < |r| ::
                var k := PingingKeys(View())[i];
                k in tracked && tracked[k].status == Pinging && r[i] == tracked[k].meeting.summary
      ensures forall k | k in tracked && tracked[k].status == Pinging :: tracked[k].meeting.summary in r
    {
      PingingSummariesCover(View());
      PingingSummaries(View())
    }

    /** The first loop of cleanup_expired: the ids whose meeting ended more
        than the retention period ago, in table order. */
    method StaleIds(now: int) returns (toRemove: seq<string>)
      requires Valid()
      ensures toRemove == Filter(keys, StaleFilter(tracked, now))
    {
      var cutoff := now - RetentionSeconds;
      var ids := keys;
      toRemove := [];
      var i := 0;
      while i < |ids|
        invariant 0 <= i <= |ids|
        invariant toRemove == Filter(ids[..i], StaleFilter(tracked, now))
      {
        FilterPrefixStep(ids, i, StaleFilter(tracked, now));
        if tracked[ids[i]].meeting.endTime < cutoff {
          toRemove := toRemove + [ids[i]];
        }
        i := i + 1;
      }
      assert ids[..|ids|] == ids;
    }

    /** The second loop of cleanup_expired: each listed id is deleted. */
    method RemoveAll(toRemove: seq<string>)
      modifies this
      ensures keys == Filter(old(keys), Excluding(Elems(toRemove)))
      ensures tracked == old(tracked) - Elems(toRemove)
    {
      ghost var removed: set<string> := {};
      assert keys == Filter(old(keys), Excluding(removed)) by { ExcludingNothing(keys); }
      var j := 0;
      while j < |toRemove|
        invariant 0 <= j <= |toRemove|
        invariant removed == Elems(toRemove[..j])
        invariant keys == Filter(old(keys), Excluding(removed))
        invariant tracked == old(tracked) - removed
      {
        var id := toRemove[j];
        ElemsPrefixStep(toRemove, j);
        ExcludingTwice(old(keys), removed, {id});
        MapMinusTwice(old(tracked), removed, {id});
        keys := Filter(keys, Excluding({id}));
        tracked := tracked - {id};
        removed := removed + {id};
        j := j + 1;
      }
      assert toRemove[..j] == toRemove;
    }

    /** cleanup_expired */
    method CleanupExpired(now: int)
      requires Valid()
      modifies this
      ensures Valid()
      ensures View() == CleanupTable(old(View()), now)
    {
      ghost var t := View();
      var toRemove := StaleIds(now);
      RemoveAll(toRemove);
      assert Elems(toRemove) == StaleSet(t, now) by {
        FilterMembers(t.keys, StaleFilter(t.entries, now));
      }
      CleanupSpec(t, now);
      assert View() == CleanupTable(t, now);
    }

    /** active_count: the number of tracked meetings still PENDING or
        PINGING. */
    function ActiveCount(): (n: nat)
      reads this
      requires Valid()
      ensures n == |set k | k in tracked && IsActive(tracked[k])|
      ensures n <= |keys|
    {
      ActiveCountIsCardinality(View());
      CountActive(View())
    }
  }
}
