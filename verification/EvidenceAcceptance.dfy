/** The server takes what the player sends: the events of an ordinary loop, live or recovered, pass the
    server's validation, so that no honest batch is rejected and then discarded by the player. */
module EvidenceAcceptance {
  import opened Options
  import opened Evidence
  import LoopBatch
  import opened PlaybackEvidence
  import S = ServerIngest
  import P = PlaybackRuns
  import D = EvidenceDelivery

  /** What the player reports of a playback of `entry`: a completed one with the entry's own duration, a failed
      or an interrupted one with one of the reasons the player has for it. */
  predicate PlayerReport(e: Event, entry: S.Entry) {
    match e.status
    case Completed => e.durationMs == entry.durationMs && e.failureReason == ""
    case Failed => e.failureReason in {"missing_file", "decode_failure", "playback_timeout", "start_timeout"}
    case Interrupted =>
      e.failureReason in {
        "planned_shutdown", "administrator_session", "device_owner_removed", "device_disabled", "fallback_mode",
        "app_update", "urgent_playlist_replacement", "scheduled_playlist_replacement", "credential_rejected",
        "server_forbidden", "app_restart_or_unexpected_exit"}
  }

  /** The player's clock: an event ends after it starts, within the loop of its batch, and its playing time,
      counted by another clock, is at most five seconds longer. */
  predicate PlayerTimes(e: Event, b: Batch) {
    && e.endedAt.Some? && b.loopStartedAt <= e.startedAt <= e.endedAt.value <= b.loopEndedAt
    && 0 <= e.durationMs < 0x8000_0000
    && (e.durationMs - 5_000) * 1000 <= e.endedAt.value - e.startedAt
  }

  /** Whatever the player reports of an entry of the playlist is valid, the filler for one it did not reach
      included. */
  lemma PlayerEventIsValid(e: Event, entries: map<nat, S.Entry>, b: Batch)
    requires e.item in entries && PlayerTimes(e, b)
    requires PlayerReport(e, entries[e.item])
             || (e.status.Interrupted? && e.failureReason == "loop_interrupted_before_entry")
    ensures S.ValidEvent(e, entries, b.loopStartedAt, b.loopEndedAt)
  {
    S.EventIsValidExactly(e, entries, b.loopStartedAt, b.loopEndedAt);
  }

  lemma FillerIsValid(id: nat, entry: nat, now: int, entries: map<nat, S.Entry>, loopStartedAt: int, loopEndedAt: int)
    requires entry in entries && loopStartedAt <= now <= loopEndedAt
    ensures S.ValidEvent(LoopBatch.Filler(id, entry, now), entries, loopStartedAt, loopEndedAt)
  {
    S.EventIsValidExactly(LoopBatch.Filler(id, entry, now), entries, loopStartedAt, loopEndedAt);
  }

  /** A batch of any run whose activations find an empty loop, when its playbacks were reported as the player
      reports them, is exactly acceptable evidence for its playlist. */
  lemma OrdinaryBatchIsAcceptable(s0: P.State, steps: seq<P.Step>, s: P.State, i: nat, playlist: S.Playlist)
    requires P.Initial(s0) && P.Run(s0, steps, s) && P.GapFree(s0, steps) && i < |s.pl.d.inserted|
    requires playlist.entries != map[] && playlist.entries.Keys == Members(s.pl.d.inserted[i].manifest.entries)
    requires var b := s.pl.d.inserted[i].batch;
             && b.loopStartedAt <= b.loopEndedAt && playlist.startsAt - 5_000_000 <= b.loopStartedAt
             && (forall e :: e in b.events ==> PlayerTimes(e, b))
             && (forall e :: e in b.events && e.id in s.begun && e.item in playlist.entries ==>
                   PlayerReport(e, playlist.entries[e.item]))
    ensures S.Acceptable(playlist, s.pl.d.inserted[i].batch)
  {
    var b := s.pl.d.inserted[i].batch;
    P.EveryBatchCovers(s0, steps, s, i);
    forall k | 0 <= k < |b.events| ensures S.ValidEvent(b.events[k], playlist.entries, b.loopStartedAt, b.loopEndedAt) {
      var e := b.events[k];
      assert Items(b.events)[k] == e.item && e.item in Items(b.events);
      assert e.item in Members(Items(b.events));
      BegunOrFiller(s0, steps, s, i, e);
      PlayerEventIsValid(e, playlist.entries, b);
    }
  }

  lemma BegunOrFiller(s0: P.State, steps: seq<P.Step>, s: P.State, i: nat, e: Event)
    requires P.Initial(s0) && P.Run(s0, steps, s) && i < |s.pl.d.inserted| && e in s.pl.d.inserted[i].batch.events
    ensures e.id in s.begun || (e.status.Interrupted? && e.failureReason == "loop_interrupted_before_entry")
  {
    P.NoFabricatedEvidence(s0, steps, s, i, e);
  }

  /** Such a batch, new to the server, is answered with success and stored: nothing of it can be refused. */
  lemma OrdinaryBatchIsAccepted(
    s0: P.State, steps: seq<P.Step>, s: P.State, i: nat, playlists: map<nat, S.Playlist>, records: S.Records,
    device: nat)
    requires P.Initial(s0) && P.Run(s0, steps, s) && P.GapFree(s0, steps) && i < |s.pl.d.inserted|
    requires s.pl.d.inserted[i].batch.playlistId in playlists
    requires var b := s.pl.d.inserted[i].batch;
             var playlist := playlists[b.playlistId];
             && playlist.published && playlist.entries != map[]
             && playlist.entries.Keys == Members(s.pl.d.inserted[i].manifest.entries)
             && b.loopStartedAt <= b.loopEndedAt && playlist.startsAt - 5_000_000 <= b.loopStartedAt
             && (forall e :: e in b.events ==> PlayerTimes(e, b))
             && (forall e :: e in b.events && e.id in s.begun && e.item in playlist.entries ==>
                   PlayerReport(e, playlist.entries[e.item]))
             && b.id !in records && !S.EventIdTaken(records, b)
    ensures var b := s.pl.d.inserted[i].batch;
            && S.Checked(playlists, records, device, false, b).None?
            && S.InsertAnswer(records, device, b) == S.Accepted(false)
            && S.InsertRecords(records, device, b) == records[b.id := S.Record(device, b)]
  {
    OrdinaryBatchIsAcceptable(s0, steps, s, i, playlists[s.pl.d.inserted[i].batch.playlistId]);
  }

  /** Conversely a failure is never taken for an interruption, nor either for a completed playback. */
  lemma AcceptedOutcomes(playlist: S.Playlist, b: Batch, e: Event)
    requires S.Acceptable(playlist, b) && e in b.events
    ensures e.status.Failed? <==>
              e.failureReason in {"decode_failure", "missing_file", "playback_timeout", "start_timeout"}
    ensures e.status.Completed? <==> e.failureReason == ""
    ensures e.status.Completed? ==>
              var d := playlist.entries[e.item].durationMs;
              e.item in playlist.entries && d - 500 <= e.durationMs <= d + 500
  {
    var k :| 0 <= k < |b.events| && b.events[k] == e;
    S.EventIsValidExactly(e, playlist.entries, b.loopStartedAt, b.loopEndedAt);
  }
}
