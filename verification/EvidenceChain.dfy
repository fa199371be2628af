/** From the start of a playback to the server's row: the play loop with its crashes and the upload queue
    with its network, run together. A batch the loop stores enters the queue in the same transaction. */
module EvidenceChain {
  import opened Evidence
  import opened PlayerStore
  import LoopBatch
  import opened PlaybackEvidence
  import S = ServerIngest
  import P = PlaybackRuns
  import D = EvidenceDelivery

  datatype State = State(play: P.State, net: D.State)

  /** `bytes` and `createdAt` describe the queue row if the step stores a batch. */
  datatype Step =
    | Play(step: P.Step, bytes: nat, createdAt: int)
    | Net(delivery: D.Step)

  predicate StoresBatch(s: P.State, step: P.Step)
    requires P.Enabled(s, step)
  {
    |P.Next(s, step).pl.d.inserted| > |s.pl.d.inserted|
  }

  function StoredRow(s: P.State, step: P.Step, bytes: nat, createdAt: int): D.QueueRow
    requires P.Enabled(s, step) && StoresBatch(s, step)
  {
    var inserted := P.Next(s, step).pl.d.inserted;
    var b := inserted[|inserted| - 1].batch;
    Row(b.id, bytes, createdAt, b)
  }

  ghost predicate Enabled(s: State, step: Step) {
    match step
    case Play(p, _, _) => P.Enabled(s.play, p)
    case Net(d) => !d.Enqueue? && D.Enabled(s.net, d)
  }

  ghost function Next(s: State, step: Step): State
    requires Enabled(s, step)
  {
    match step
    case Play(p, bytes, createdAt) =>
      State(P.Next(s.play, p),
            if StoresBatch(s.play, p)
            then s.net.(client := D.EnqueuedRow(s.net.client, StoredRow(s.play, p, bytes, createdAt)))
            else s.net)
    case Net(d) => State(s.play, D.Next(s.net, d))
  }

  ghost predicate Initial(s: State) {
    P.Initial(s.play) && D.Initial(s.net)
  }

  ghost predicate Run(s: State, steps: seq<Step>, s': State)
    decreases |steps|
  {
    if steps == [] then s == s'
    else Enabled(s, steps[0]) && Run(Next(s, steps[0]), steps[1..], s')
  }

  /** The queue has received exactly the batches the loop stored, whose ids were all drawn. */
  ghost predicate Linked(s: State) {
    var stored, queued := s.play.pl.d.inserted, s.net.client.inserted;
    && |stored| == |queued|
    && forall k :: 0 <= k < |stored| ==> queued[k] == stored[k].batch && queued[k].id in s.play.used
  }

  ghost predicate Inv(s: State) {
    P.Inv(s.play) && P.Truthful(s.play) && P.RecordedKept(s.play) && D.Inv(s.net) && Linked(s)
  }

  /** A step of the loop stores at most one batch, under a new id. */
  lemma StoresOneNewBatch(s: P.State, step: P.Step)
    requires P.Enabled(s, step)
    ensures var s' := P.Next(s, step);
            && s.used <= s'.used && s.pl.d.inserted <= s'.pl.d.inserted
            && |s'.pl.d.inserted| <= |s.pl.d.inserted| + 1
            && (StoresBatch(s, step) ==>
                  var b := s'.pl.d.inserted[|s.pl.d.inserted|].batch; b.id in s'.used && b.id !in s.used)
  {}

  lemma NewIdIsNotQueued(net: D.State, used: set<nat>, id: nat)
    requires D.Inv(net) && id !in used
    requires forall k :: 0 <= k < |net.client.inserted| ==> net.client.inserted[k].id in used
    ensures !Holds(net.client.pending, id)
  {
    forall k | 0 <= k < |net.client.pending| ensures net.client.pending[k].id in used {
      D.PendingWasInserted(net.client, k);
    }
  }

  lemma PlayKeeps(s: State, p: P.Step, bytes: nat, createdAt: int)
    requires Inv(s) && P.Enabled(s.play, p)
    ensures Inv(Next(s, Play(p, bytes, createdAt)))
  {
    P.StepInv(s.play, p);
    P.StepTrue(s.play, p);
    PlayKeepsLink(s, p, bytes, createdAt);
  }

  lemma PlayKeepsLink(s: State, p: P.Step, bytes: nat, createdAt: int)
    requires D.Inv(s.net) && Linked(s) && P.Enabled(s.play, p)
    ensures D.Inv(Next(s, Play(p, bytes, createdAt)).net) && Linked(Next(s, Play(p, bytes, createdAt)))
  {
    StoresOneNewBatch(s.play, p);
    if StoresBatch(s.play, p) {
      var row := StoredRow(s.play, p, bytes, createdAt);
      NewIdIsNotQueued(s.net, s.play.used, row.id);
      assert D.Enabled(s.net, D.Enqueue(row));
      D.StepInv(s.net, D.Enqueue(row));
    }
  }

  lemma StepInv(s: State, step: Step)
    requires Inv(s) && Enabled(s, step)
    ensures Inv(Next(s, step))
  {
    match step
    case Play(p, bytes, createdAt) => PlayKeeps(s, p, bytes, createdAt);
    case Net(d) => D.StepInv(s.net, d);
  }

  lemma {:induction false} RunInv(s: State, steps: seq<Step>, s': State)
    requires Inv(s) && Run(s, steps, s')
    ensures Inv(s')
    decreases |steps|
  {
    if steps != [] {
      StepInv(s, steps[0]);
      RunInv(Next(s, steps[0]), steps[1..], s');
    }
  }

  lemma InitialInv(s: State)
    requires Initial(s)
    ensures Inv(s)
  {
    assert DurableIds(s.play.pl.d) == {};
  }

  lemma ReachableInv(s0: State, steps: seq<Step>, s: State)
    requires Initial(s0) && Run(s0, steps, s)
    ensures Inv(s)
  {
    InitialInv(s0);
    RunInv(s0, steps, s);
  }

  // ---- Every playback is accounted for ----

  lemma {:induction false} EventOfId(inserted: seq<Inserted>, id: nat) returns (k: nat, e: Event)
    requires id in P.InsertedIds(inserted)
    ensures k < |inserted| && e in inserted[k].batch.events && e.id == id
  {
    var last := |inserted| - 1;
    var events := inserted[last].batch.events;
    if id in Ids(events) {
      var j :| 0 <= j < |events| && Ids(events)[j] == id;
      k, e := last, events[j];
    } else {
      k, e := EventOfId(inserted[..last], id);
    }
  }

  /** Where the evidence of one playback is once its batch exists: queued, given up and counted in a loss
      event, or in the server's rows under this device. */
  ghost predicate Delivered(net: D.State, b: Batch, e: Event) {
    || b in D.Payloads(net.client.pending)
    || b in net.client.removed
    || (b in net.client.acked && b.id in net.server.records && net.server.records[b.id].device == D.ME
        && e in net.server.records[b.id].batch.events)
  }

  /** After any run of loop, crashes, queue, network and server, every playback that began is still stored
      on the player, covered by a loss event, or one event of a batch that is queued, counted as removed,
      or acknowledged and then stored on the server with exactly this event. */
  lemma EveryPlaybackIsAccounted(s0: State, steps: seq<Step>, s: State, id: nat)
    requires Initial(s0) && Run(s0, steps, s) && id in s.play.begun
    ensures || id in DurableIds(s.play.pl.d)
            || id in P.LostIds(s.play.pl.d.losses)
            || exists b, e :: b in s.net.client.inserted && e in b.events && e.id == id && Delivered(s.net, b, e)
  {
    ReachableInv(s0, steps, s);
    if id !in DurableIds(s.play.pl.d) && id !in P.LostIds(s.play.pl.d.losses) {
      var k, e := EventOfId(s.play.pl.d.inserted, id);
      assert P.InSomeBatch(s.play.pl.d.inserted, e);
      InBatchIsDelivered(s, e);
    }
  }

  lemma InsertedIsDelivered(net: D.State, b: Batch, e: Event)
    requires D.Inv(net) && b in net.client.inserted && e in b.events
    ensures Delivered(net, b, e)
  {
    var c := net.client;
    assert b in multiset(c.inserted);
    assert b in multiset(D.Payloads(c.pending)) || b in multiset(c.acked) || b in multiset(c.removed);
    if b in c.acked {
      var k :| 0 <= k < |c.acked| && c.acked[k] == b;
      assert D.WasAccepted(net.replies, D.ME, c.acked[k]);
      assert D.IsStored(net.server.records, D.ME, b);
      assert S.SameEvidence(net.server.records[b.id].batch, b);
    }
  }

  /** The same for what the loop observed: its report, field by field, ends on the server, unless it is still
      on the way or a loss event covers it. */
  lemma RecordedResultIsAccounted(s0: State, steps: seq<Step>, s: State, o: Observation, e: Event)
    requires Initial(s0) && Run(s0, steps, s) && o in s.play.recorded && Reports(e, o)
    ensures || e in Stored(s.play.pl.d.results)
            || e.id in P.LostIds(s.play.pl.d.losses)
            || exists b :: b in s.net.client.inserted && e in b.events && Delivered(s.net, b, e)
  {
    ReachableInv(s0, steps, s);
    assert P.Kept(s.play.pl.d, e);
    if P.InSomeBatch(s.play.pl.d.inserted, e) {
      InBatchIsDelivered(s, e);
    }
  }

  lemma InBatchIsDelivered(s: State, e: Event)
    requires D.Inv(s.net) && Linked(s) && P.InSomeBatch(s.play.pl.d.inserted, e)
    ensures exists b :: b in s.net.client.inserted && e in b.events && Delivered(s.net, b, e)
  {
    var k :| 0 <= k < |s.play.pl.d.inserted| && e in s.play.pl.d.inserted[k].batch.events;
    var b := s.net.client.inserted[k];
    InsertedIsDelivered(s.net, b, e);
    assert b in s.net.client.inserted;
  }

  /** The server's rows under this device are true: each reports what the loop observed of a playback, field by
      field, or the interruption of a playback that began, or is an empty interruption of an entry never
      reached. A completed event has a playback behind it that was observed to complete. */
  lemma ServerHoldsOnlyTruth(s0: State, steps: seq<Step>, s: State, id: nat, e: Event)
    requires Initial(s0) && Run(s0, steps, s)
    requires id in s.net.server.records && s.net.server.records[id].device == D.ME
    requires e in s.net.server.records[id].batch.events
    ensures P.IsTrue(s.play, e)
    ensures !e.status.Interrupted? ==>
              exists o :: o in s.play.recorded && Reports(e, o) && o.ending.status == e.status
  {
    ReachableInv(s0, steps, s);
    StoredIsTrue(s, s.net.server.records[id].batch, e);
  }

  lemma StoredIsTrue(s: State, b: Batch, e: Event)
    requires D.TrafficSound(s.net) && Linked(s) && P.Truthful(s.play)
    requires D.Request(D.ME, b) in s.net.sent && e in b.events
    ensures P.IsTrue(s.play, e)
    ensures !e.status.Interrupted? ==>
              exists o :: o in s.play.recorded && Reports(e, o) && o.ending.status == e.status
  {
    var k :| 0 <= k < |s.net.client.inserted| && s.net.client.inserted[k] == b;
    assert P.InSomeBatch(s.play.pl.d.inserted, e);
  }

  // ---- What the server can refuse ----

  /** Over runs of the loop whose activations find it empty, the server's validation of a batch against its
      playlist comes down to the loop's times and the single events: ids and entries are always right. */
  lemma ValidationConcernsEventsOnly(s0: P.State, steps: seq<P.Step>, s: P.State, i: nat, playlist: S.Playlist)
    requires P.Initial(s0) && P.Run(s0, steps, s) && P.GapFree(s0, steps) && i < |s.pl.d.inserted|
    requires playlist.entries != map[] && playlist.entries.Keys == Members(s.pl.d.inserted[i].manifest.entries)
    ensures var b := s.pl.d.inserted[i].batch;
            S.Acceptable(playlist, b)
            <==> && b.loopStartedAt <= b.loopEndedAt && playlist.startsAt - b.loopStartedAt <= S.TOLERANCE
                 && S.EventsValid(playlist, b)
  {
    P.EveryBatchCovers(s0, steps, s, i);
  }

  /** From every reachable state: the first batch that a loop with foreign results inserts after an activation
      between two items is refused by the server whatever its events say, unless a loss event came first or the
      loop is still open. */
  lemma ServerRefusesGapBatch(
    s0: P.State, before: seq<P.Step>, s: P.State, m: LoopBatch.Manifest, after: seq<P.Step>, s': P.State,
    playlist: S.Playlist)
    requires P.Initial(s0) && P.Run(s0, before, s) && P.Enabled(s, P.Activate(m)) && s.pl.p.Live?
    requires P.HoldsForeign(s.pl.p.loopResults, m.entries)
    requires P.Run(P.Next(s, P.Activate(m)), after, s') && forall k :: 0 <= k < |after| ==> !after[k].Activate?
    ensures var n, inserted := |s.pl.d.inserted|, s'.pl.d.inserted;
            || P.SameHistory(s.pl.d, s'.pl.d)
            || |s'.pl.d.losses| > |s.pl.d.losses|
            || (n < |inserted|
                && (playlist.entries.Keys == Members(inserted[n].manifest.entries) ==>
                      !S.Acceptable(playlist, inserted[n].batch)))
  {
    P.GapIsRefused(s0, before, s, m, after, s');
  }
}
