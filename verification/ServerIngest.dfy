/** Acceptance of playback evidence by the server: validation, comparison with stored evidence, and the
    stored rows. JSON values arrive here already parsed into typed fields. */
module ServerIngest {
  import opened Options
  import opened Evidence

  /** Microseconds. */
  const TOLERANCE: int := 5_000_000

  const TOLERANCE_MS: int := 5_000

  const MAX_EVENT_DURATION_MS: int := 2_147_483_647

  const FAILED_REASONS: set<string> := {"decode_failure", "missing_file", "playback_timeout", "start_timeout"}

  const INTERRUPTED_REASONS: set<string> := {
    "administrator_session", "app_restart_or_power_loss", "app_restart_or_unexpected_exit", "app_update",
    "credential_rejected", "device_disabled", "device_owner_removed", "external_power_lost",
    "external_power_unavailable", "fallback_mode", "loop_interrupted_before_entry", "planned_shutdown",
    "server_forbidden", "scheduled_playlist_replacement", "urgent_playlist_replacement"}

  datatype Entry = Entry(isVideo: bool, durationMs: nat)

  /** `published`: the version is published or was. */
  datatype Playlist = Playlist(published: bool, startsAt: int, entries: map<nat, Entry>)

  // ---- One event ----

  predicate Near(t: int, from: int, to: int) {
    !(t < from && from - t > TOLERANCE) && !(t > to && t - to > TOLERANCE)
  }

  predicate ValidTimes(e: Event, loopStartedAt: int, loopEndedAt: int) {
    && Near(e.startedAt, loopStartedAt, loopEndedAt)
    && (e.endedAt.Some? ==>
          && e.endedAt.value >= e.startedAt
          && Near(e.endedAt.value, loopStartedAt, loopEndedAt)
          && e.durationMs <= (e.endedAt.value - e.startedAt) / 1000 + TOLERANCE_MS)
  }

  predicate ValidCompletion(e: Event, entry: Entry) {
    var tolerance := if entry.isVideo then 500 else 0;
    && entry.durationMs - tolerance <= e.durationMs <= entry.durationMs + tolerance
    && e.endedAt.Some? && e.failureReason == ""
  }

  predicate ValidOutcome(e: Event, entry: Entry) {
    && |e.failureReason| <= 64
    && match e.status
       case Completed => ValidCompletion(e, entry)
       case Interrupted => e.failureReason in INTERRUPTED_REASONS
       case Failed => e.failureReason in FAILED_REASONS
  }

  predicate ValidEvent(e: Event, entries: map<nat, Entry>, loopStartedAt: int, loopEndedAt: int) {
    && e.item in entries && 0 <= e.durationMs <= MAX_EVENT_DURATION_MS
    && ValidTimes(e, loopStartedAt, loopEndedAt) && ValidOutcome(e, entries[e.item])
  }

  /** What the server accepts of one event, in plain figures: times within five seconds of the loop, a playing
      time at most five seconds longer than the event lasted, and an outcome with a reason of its own kind. */
  lemma EventIsValidExactly(e: Event, entries: map<nat, Entry>, loopStartedAt: int, loopEndedAt: int)
    requires loopStartedAt <= loopEndedAt
    ensures ValidEvent(e, entries, loopStartedAt, loopEndedAt) <==>
              && e.item in entries && 0 <= e.durationMs < 0x8000_0000
              && loopStartedAt - 5_000_000 <= e.startedAt <= loopEndedAt + 5_000_000
              && (e.endedAt.Some? ==>
                    && e.startedAt <= e.endedAt.value
                    && loopStartedAt - 5_000_000 <= e.endedAt.value <= loopEndedAt + 5_000_000
                    && (e.durationMs - 5_000) * 1000 <= e.endedAt.value - e.startedAt)
              && match e.status
                 case Completed =>
                   var off := e.durationMs - entries[e.item].durationMs;
                   && (if entries[e.item].isVideo then -500 <= off <= 500 else off == 0)
                   && e.endedAt.Some? && e.failureReason == ""
                 case Failed =>
                   e.failureReason in {"decode_failure", "missing_file", "playback_timeout", "start_timeout"}
                 case Interrupted =>
                   e.failureReason in {
                     "administrator_session", "app_restart_or_power_loss", "app_restart_or_unexpected_exit",
                     "app_update", "credential_rejected", "device_disabled", "device_owner_removed",
                     "external_power_lost", "external_power_unavailable", "fallback_mode",
                     "loop_interrupted_before_entry", "planned_shutdown", "server_forbidden",
                     "scheduled_playlist_replacement", "urgent_playlist_replacement"}
  {
    if e.endedAt.Some? {
      var d := e.endedAt.value - e.startedAt;
      assert e.durationMs <= d / 1000 + TOLERANCE_MS <==> (e.durationMs - 5_000) * 1000 <= d;
    }
  }

  /** Accepted evidence cannot claim more playing time than its loop lasted, give or take 15 seconds, and
      a completed event is backed by an interval of the media's own length. */
  lemma ClaimedTimeIsBounded(e: Event, entries: map<nat, Entry>, loopStartedAt: int, loopEndedAt: int)
    requires ValidEvent(e, entries, loopStartedAt, loopEndedAt) && loopStartedAt <= loopEndedAt
    ensures e.endedAt.Some? ==> e.durationMs * 1000 <= loopEndedAt - loopStartedAt + 3 * TOLERANCE
    ensures e.status.Completed? ==>
              e.endedAt.Some? && (entries[e.item].durationMs - 500) * 1000 <= e.endedAt.value - e.startedAt + TOLERANCE
  {
    if e.endedAt.Some? {
      var d := e.endedAt.value - e.startedAt;
      assert (d / 1000) * 1000 <= d;
    }
  }

  // ---- One batch ----

  ghost predicate EventsValid(p: Playlist, b: Batch) {
    forall k :: 0 <= k < |b.events| ==> ValidEvent(b.events[k], p.entries, b.loopStartedAt, b.loopEndedAt)
  }

  /** The evidence the server accepts: valid events with ids of their own, one for every entry. */
  ghost predicate Acceptable(p: Playlist, b: Batch) {
    && b.loopStartedAt <= b.loopEndedAt && p.startsAt - b.loopStartedAt <= TOLERANCE
    && p.entries != map[] && EventsValid(p, b)
    && OnePerEntry(p.entries.Keys, b.events)
  }

  /** The program's checks, with their counts, accept exactly the acceptable batches. */
  method ValidatePlaybackBatchPayload(p: Playlist, b: Batch) returns (valid: bool)
    ensures valid == Acceptable(p, b)
  {
    if b.loopEndedAt < b.loopStartedAt { return false; }
    if b.loopStartedAt < p.startsAt && p.startsAt - b.loopStartedAt > TOLERANCE { return false; }
    if p.entries == map[] { return false; }
    var items, ids := Items(b.events), Ids(b.events);
    DistinctBySize(items);
    DistinctBySize(ids);
    if |b.events| != |p.entries| {
      assert |p.entries| == |p.entries.Keys|;
      return false;
    }
    var k := 0;
    while k < |b.events|
      invariant 0 <= k <= |b.events|
      invariant forall j :: 0 <= j < k ==> ValidEvent(b.events[j], p.entries, b.loopStartedAt, b.loopEndedAt)
    {
      if !ValidEvent(b.events[k], p.entries, b.loopStartedAt, b.loopEndedAt) { return false; }
      k := k + 1;
    }
    if |ids| != |Members(ids)| { return false; }
    if |items| != |Members(items)| { return false; }
    valid := Members(items) == p.entries.Keys;
  }

  // ---- Comparison with stored evidence ----

  ghost predicate SameEvents(a: seq<Event>, b: seq<Event>) {
    forall e :: e in a <==> e in b
  }

  /** The same evidence up to the order of its events. */
  ghost predicate SameEvidence(a: Batch, b: Batch) {
    && a.playlistId == b.playlistId && a.loopStartedAt == b.loopStartedAt && a.loopEndedAt == b.loopEndedAt
    && a.capturedOffline == b.capturedOffline && SameEvents(a.events, b.events)
  }

  method ById(events: seq<Event>) returns (m: map<nat, Event>)
    requires Distinct(Ids(events))
    ensures m.Keys == Members(Ids(events))
    ensures forall id :: id in m ==> m[id] in events && m[id].id == id
    ensures forall k :: 0 <= k < |events| ==> events[k].id in m && m[events[k].id] == events[k]
  {
    m := map[];
    var k := 0;
    while k < |events|
      invariant 0 <= k <= |events| && m.Keys == Members(Ids(events)[..k])
      invariant forall id :: id in m ==> m[id] in events && m[id].id == id
      invariant forall j :: 0 <= j < k ==> events[j].id in m && m[events[j].id] == events[j]
    {
      assert Ids(events)[..k + 1] == Ids(events)[..k] + [events[k].id];
      m := m[events[k].id := events[k]];
      k := k + 1;
    }
    assert Ids(events)[..k] == Ids(events);
  }

  method PlaybackBatchMatches(existing: Batch, submitted: Batch) returns (same: bool)
    requires Distinct(Ids(existing.events)) && Distinct(Ids(submitted.events))
    ensures same == SameEvidence(existing, submitted)
  {
    if existing.playlistId != submitted.playlistId || existing.loopStartedAt != submitted.loopStartedAt
       || existing.loopEndedAt != submitted.loopEndedAt || existing.capturedOffline != submitted.capturedOffline
    {
      return false;
    }
    var submittedEvents := ById(submitted.events);
    var storedEvents := ById(existing.events);
    if submittedEvents.Keys != storedEvents.Keys {
      DifferentIds(existing.events, submitted.events);
      return false;
    }
    var k := 0;
    while k < |submitted.events|
      invariant 0 <= k <= |submitted.events|
      invariant forall j :: 0 <= j < k ==> submitted.events[j] in existing.events
    {
      var e := submitted.events[k];
      if storedEvents[e.id] != e {
        assert e !in existing.events;
        assert e in submitted.events;
        return false;
      }
      k := k + 1;
    }
    forall e ensures e in existing.events <==> e in submitted.events {
      if e in existing.events {
        assert e.id in storedEvents && storedEvents[e.id] == e;
        assert submittedEvents[e.id] in existing.events;
      }
    }
    same := true;
  }

  lemma DifferentIds(a: seq<Event>, b: seq<Event>)
    requires Members(Ids(a)) != Members(Ids(b))
    ensures !SameEvents(a, b)
  {
    if SameEvents(a, b) {
      SameIds(a, b);
      SameIds(b, a);
    }
  }

  lemma SameIds(a: seq<Event>, b: seq<Event>)
    requires SameEvents(a, b)
    ensures Members(Ids(a)) <= Members(Ids(b))
  {
    forall x | x in Ids(a) ensures x in Ids(b) {
      var k :| 0 <= k < |a| && Ids(a)[k] == x;
      assert a[k] in b;
      var j :| 0 <= j < |b| && b[j] == a[k];
      assert Ids(b)[j] == x;
    }
  }

  // ---- The stored rows ----

  datatype Record = Record(device: nat, batch: Batch)

  type Records = map<nat, Record>

  datatype Answer = Accepted(duplicate: bool) | Rejected(status: nat)

  const BAD_REQUEST: nat := 400

  const FORBIDDEN: nat := 403

  /** Event ids are a primary key over all batches. */
  predicate EventIdTaken(records: Records, b: Batch) {
    exists k :: k in records && !(Members(Ids(records[k].batch.events)) !! Members(Ids(b.events)))
  }

  /** The answer to evidence whose batch id is stored already. */
  ghost function AnswerStored(r: Record, device: nat, b: Batch): Answer {
    if r.device != device then Rejected(FORBIDDEN)
    else if SameEvidence(r.batch, b) then Accepted(true) else Rejected(BAD_REQUEST)
  }

  /** The checks before the insertion; None means that the batch may be inserted. */
  ghost function Checked(
    playlists: map<nat, Playlist>, records: Records, device: nat, disabled: bool, b: Batch): Option<Answer>
  {
    if disabled then Some(Rejected(FORBIDDEN))
    else if b.id in records && records[b.id].device != device then Some(Rejected(FORBIDDEN))
    else if b.playlistId !in playlists then Some(Rejected(BAD_REQUEST))
    else if b.id !in records && !playlists[b.playlistId].published then Some(Rejected(BAD_REQUEST))
    else if !Acceptable(playlists[b.playlistId], b) then Some(Rejected(BAD_REQUEST))
    else if b.id in records then Some(AnswerStored(records[b.id], device, b))
    else None
  }

  /** The insertion, which may find that another request stored the id meanwhile. */
  ghost function InsertAnswer(records: Records, device: nat, b: Batch): Answer {
    if b.id in records then AnswerStored(records[b.id], device, b)
    else if EventIdTaken(records, b) then Rejected(BAD_REQUEST)
    else Accepted(false)
  }

  function InsertRecords(records: Records, device: nat, b: Batch): Records {
    if b.id in records || EventIdTaken(records, b) then records else records[b.id := Record(device, b)]
  }

  /** The answer to a request when no other comes between its checks and its insertion. */
  ghost function AnswerTo(
    playlists: map<nat, Playlist>, records: Records, device: nat, disabled: bool, b: Batch): Answer
  {
    var checked := Checked(playlists, records, device, disabled, b);
    if checked.Some? then checked.value else InsertAnswer(records, device, b)
  }

  /** Each answer by its reason: access is refused exactly to a disabled device or to another device's batch id; new
      evidence is taken exactly if it is acceptable for a published playlist and none of its event ids is stored;
      a duplicate is exactly the same evidence again; everything else is a bad request. */
  lemma AnswersExactly(playlists: map<nat, Playlist>, records: Records, device: nat, disabled: bool, b: Batch)
    ensures var a := AnswerTo(playlists, records, device, disabled, b);
            var barred := disabled || (b.id in records && records[b.id].device != device);
            var valid := b.playlistId in playlists && Acceptable(playlists[b.playlistId], b);
            && (a == Rejected(403) <==> barred)
            && (a == Accepted(false) <==>
                  && !barred && valid && b.id !in records && playlists[b.playlistId].published
                  && forall k, x :: k in records && x in Ids(b.events) ==> x !in Ids(records[k].batch.events))
            && (a == Accepted(true) <==>
                  && !barred && valid && b.id in records
                  && var r := records[b.id].batch;
                     && r.playlistId == b.playlistId && r.loopStartedAt == b.loopStartedAt
                     && r.loopEndedAt == b.loopEndedAt && r.capturedOffline == b.capturedOffline
                     && forall e :: e in r.events <==> e in b.events)
            && (a.Accepted? || a == Rejected(403) || a == Rejected(400))
  {
    TakenMeansShared(records, b);
  }

  lemma TakenMeansShared(records: Records, b: Batch)
    ensures EventIdTaken(records, b) <==>
              exists k, x :: k in records && x in Ids(b.events) && x in Ids(records[k].batch.events)
  {
    if k, x :| k in records && x in Ids(b.events) && x in Ids(records[k].batch.events) {
      assert x in Members(Ids(records[k].batch.events)) && x in Members(Ids(b.events));
    }
    if EventIdTaken(records, b) {
      var k :| k in records && !(Members(Ids(records[k].batch.events)) !! Members(Ids(b.events)));
      var x :| x in Members(Ids(records[k].batch.events)) && x in Members(Ids(b.events));
      assert x in Ids(b.events);
    }
  }

  class PlaybackTable {
    var records: Records

    ghost predicate Valid()
      reads this
    {
      forall k :: k in records ==> Distinct(Ids(records[k].batch.events))
    }

    constructor ()
      ensures Valid() && records == map[]
    {
      records := map[];
    }

    method Insert(device: nat, b: Batch) returns (a: Answer)
      requires Valid() && Distinct(Ids(b.events))
      modifies this
      ensures Valid() && a == old(InsertAnswer(records, device, b))
      ensures records == old(InsertRecords(records, device, b))
    {
      if b.id in records || EventIdTaken(records, b) {
        if b.id in records {
          var raced := records[b.id];
          if raced.device != device { return Rejected(FORBIDDEN); }
          var same := PlaybackBatchMatches(raced.batch, b);
          if same { return Accepted(true); }
        }
        return Rejected(BAD_REQUEST);
      }
      records := records[b.id := Record(device, b)];
      a := Accepted(false);
    }

    /** The endpoint, when no other request comes between its checks and its insertion. */
    method PlaybackBatch(playlists: map<nat, Playlist>, device: nat, disabled: bool, b: Batch) returns (a: Answer)
      requires Valid()
      modifies this
      ensures Valid()
      ensures a == old(AnswerTo(playlists, records, device, disabled, b))
      ensures records == if a == Accepted(false) then old(records)[b.id := Record(device, b)] else old(records)
    {
      if disabled { return Rejected(FORBIDDEN); }
      if b.id in records && records[b.id].device != device { return Rejected(FORBIDDEN); }
      if b.playlistId !in playlists { return Rejected(BAD_REQUEST); }
      if b.id !in records && !playlists[b.playlistId].published { return Rejected(BAD_REQUEST); }
      var valid := ValidatePlaybackBatchPayload(playlists[b.playlistId], b);
      if !valid { return Rejected(BAD_REQUEST); }
      if b.id in records {
        var same := PlaybackBatchMatches(records[b.id].batch, b);
        return if same then Accepted(true) else Rejected(BAD_REQUEST);
      }
      a := Insert(device, b);
    }
  }
}
