/** Deletion of expired playback evidence in bounded transactions, against the foreign keys between
    corrections, events and batches. Nothing else writes meanwhile. */
module EvidenceRetention {
  import opened Evidence

  const DELETE_BATCH_SIZE: nat := 5_000

  datatype EventRow = EventRow(status: Status, startedAt: int, batch: nat)

  /** `corrections` maps a correction to its event, `batches` a batch to its loop start. */
  datatype Tables = Tables(events: map<nat, EventRow>, corrections: map<nat, nat>, batches: map<nat, int>)

  datatype Counts = Counts(corrections: int, events: int, batches: int)

  ghost predicate Integrity(t: Tables) {
    && (forall c :: c in t.corrections ==> t.corrections[c] in t.events)
    && (forall e :: e in t.events ==> t.events[e].batch in t.batches)
  }

  // ---- What a complete run leaves ----

  predicate IsExpired(r: EventRow, statuses: set<Status>, cutoff: int) {
    r.status in statuses && r.startedAt < cutoff
  }

  /** The events left once the expired ones of `statuses` are gone. */
  function EventsLeft(events: map<nat, EventRow>, statuses: set<Status>, cutoff: int): map<nat, EventRow> {
    map e | e in events && !IsExpired(events[e], statuses, cutoff) :: events[e]
  }

  function CorrectionsLeft(corrections: map<nat, nat>, events: map<nat, EventRow>): map<nat, nat> {
    map c | c in corrections && corrections[c] in events :: corrections[c]
  }

  predicate HasEvents(events: map<nat, EventRow>, batch: nat) {
    exists e :: e in events && events[e].batch == batch
  }

  function BatchesLeft(batches: map<nat, int>, events: map<nat, EventRow>, cutoff: int): map<nat, int> {
    map b | b in batches && (batches[b] >= cutoff || HasEvents(events, b)) :: batches[b]
  }

  const ALL_STATUSES: set<Status> := {Completed, Interrupted, Failed}

  /** Every event not older than the cutoff stays with its corrections; every batch stays that is recent
      or still has events; everything else goes. */
  function Retained(t: Tables, cutoff: int): Tables {
    var events := EventsLeft(t.events, ALL_STATUSES, cutoff);
    Tables(events, CorrectionsLeft(t.corrections, events), BatchesLeft(t.batches, events, cutoff))
  }

  function Removed(before: Tables, after: Tables): Counts {
    Counts(|before.corrections| - |after.corrections|,
           |before.events| - |after.events|,
           |before.batches| - |after.batches|)
  }

  /** What the retained tables promise: no expired event, no old empty batch, newer events and their
      corrections untouched, and no dangling reference. */
  lemma RetentionIsExact(t: Tables, cutoff: int)
    requires Integrity(t)
    ensures var r := Retained(t, cutoff);
            && Integrity(r)
            && (forall e :: e in r.events <==> e in t.events && t.events[e].startedAt >= cutoff)
            && (forall e :: e in r.events ==> r.events[e] == t.events[e])
            && (forall c :: c in r.corrections <==>
                  c in t.corrections && t.events[t.corrections[c]].startedAt >= cutoff)
            && (forall c :: c in r.corrections ==> r.corrections[c] == t.corrections[c])
            && (forall b :: b in r.batches <==>
                  b in t.batches
                  && (t.batches[b] >= cutoff
                      || exists e :: e in t.events && t.events[e].batch == b && t.events[e].startedAt >= cutoff))
            && (forall b :: b in r.batches ==> r.batches[b] == t.batches[b])
            && Retained(r, cutoff) == r
  {
    var r := Retained(t, cutoff);
    forall s: Status ensures s in ALL_STATUSES {
      assert s.Completed? || s.Interrupted? || s.Failed?;
    }
    forall e | e in r.events ensures t.events[e].batch in r.batches {
      assert HasEvents(r.events, t.events[e].batch);
    }
    assert EventsLeft(r.events, ALL_STATUSES, cutoff) == r.events;
    assert CorrectionsLeft(r.corrections, r.events) == r.corrections;
    assert BatchesLeft(r.batches, r.events, cutoff) == r.batches;
  }

  // ---- Bounded queries ----

  /** As many of the matching rows as one transaction may delete. */
  method SomeOf(matching: set<nat>) returns (ids: set<nat>)
    ensures ids <= matching && |ids| <= DELETE_BATCH_SIZE && (|ids| == 0 <==> matching == {})
  {
    ids := {};
    var rest := matching;
    while rest != {} && |ids| < DELETE_BATCH_SIZE
      invariant rest <= matching && ids == matching - rest && |ids| <= DELETE_BATCH_SIZE
      invariant rest == matching || ids != {}
      decreases |rest|
    {
      var i :| i in rest;
      assert ids + {i} == matching - (rest - {i});
      ids, rest := ids + {i}, rest - {i};
    }
  }

  /** The query of the loop over events. */
  function ExpiredIds(events: map<nat, EventRow>, status: Status, cutoff: int): set<nat> {
    set e | e in events && events[e].status == status && events[e].startedAt < cutoff
  }

  /** The query of the loop over batches. */
  function EmptyIds(batches: map<nat, int>, events: map<nat, EventRow>, cutoff: int): set<nat> {
    set b | b in batches && batches[b] < cutoff && !HasEvents(events, b)
  }

  lemma MinusSize<T>(m: map<nat, T>, ids: set<nat>)
    requires ids <= m.Keys
    ensures |m - ids| == |m| - |ids|
  {
    assert (m - ids).Keys == m.Keys - ids;
    assert |m.Keys| == |m| && |(m - ids).Keys| == |m - ids|;
    assert m.Keys == (m.Keys - ids) + ids;
  }

  class EvidenceTables {
    var events: map<nat, EventRow>
    var corrections: map<nat, nat>
    var batches: map<nat, int>

    function View(): Tables
      reads this
    {
      Tables(events, corrections, batches)
    }

    constructor ()
      ensures View() == Tables(map[], map[], map[])
    {
      events, corrections, batches := map[], map[], map[];
    }

    /** The database refuses to delete an event that a correction still references. */
    method DeleteEvents(ids: set<nat>)
      requires ids <= events.Keys && forall c :: c in corrections ==> corrections[c] !in ids
      modifies `events
      ensures events == old(events) - ids
    {
      events := events - ids;
    }

    method DeleteBatches(ids: set<nat>)
      requires ids <= batches.Keys && forall e :: e in events ==> events[e].batch !in ids
      modifies `batches
      ensures batches == old(batches) - ids
    {
      batches := batches - ids;
    }

    /** One transaction: some events together with their corrections. */
    method DeleteEvidence(ids: set<nat>) returns (correctionCount: nat)
      requires Integrity(View()) && ids <= events.Keys
      modifies `events, `corrections
      ensures Integrity(View()) && events == old(events) - ids
      ensures corrections == CorrectionsLeft(old(corrections), events)
      ensures correctionCount == |old(corrections)| - |corrections|
    {
      var dependent := set c | c in corrections && corrections[c] in ids;
      MinusSize(corrections, dependent);
      correctionCount := |dependent|;
      corrections := corrections - dependent;
      DeleteEvents(ids);
      assert corrections == CorrectionsLeft(old(corrections), events);
    }

    /** One turn of the loop over the expired events of a status; it deletes none exactly if none is left. */
    method DeleteSomeExpired(status: Status, cutoff: int, ghost before: Tables)
      returns (correctionCount: nat, eventCount: nat)
      requires Integrity(View()) && Partial(before, View(), status, cutoff)
      modifies `events, `corrections
      ensures Integrity(View()) && Partial(before, View(), status, cutoff)
      ensures correctionCount == |old(corrections)| - |corrections|
      ensures eventCount == |old(events)| - |events| <= 5_000
      ensures eventCount == 0 ==> correctionCount == 0 && events == EventsLeft(before.events, {status}, cutoff)
    {
      var candidates := SomeOf(ExpiredIds(events, status, cutoff));
      if |candidates| == 0 {
        NothingExpired(events, status, cutoff);
        return 0, 0;
      }
      MinusSize(events, candidates);
      PartialContinues(before, View(), candidates, status, cutoff);
      correctionCount := DeleteEvidence(candidates);
      eventCount := |candidates|;
    }

    /** The loop over the expired events of one status. */
    method DeleteExpired(status: Status, cutoff: int) returns (correctionCount: nat, eventCount: nat)
      requires Integrity(View())
      modifies `events, `corrections
      ensures Integrity(View())
      ensures events == EventsLeft(old(events), {status}, cutoff)
      ensures corrections == CorrectionsLeft(old(corrections), events)
      ensures correctionCount == |old(corrections)| - |corrections| && eventCount == |old(events)| - |events|
    {
      correctionCount, eventCount := 0, 0;
      ghost var before := View();
      NothingRemovedYet(before, status, cutoff);
      while true
        invariant Integrity(View()) && Partial(before, View(), status, cutoff)
        invariant correctionCount == |before.corrections| - |corrections| && eventCount == |before.events| - |events|
        decreases |events|
      {
        var c, e := DeleteSomeExpired(status, cutoff, before);
        if e == 0 { break; }
        correctionCount := correctionCount + c;
        eventCount := eventCount + e;
      }
    }

    /** Batches that are old and have lost all their events. */
    method DeleteEmptyBatches(cutoff: int) returns (batchCount: nat)
      requires Integrity(View())
      modifies `batches
      ensures Integrity(View())
      ensures batches == BatchesLeft(old(batches), events, cutoff) && batchCount == |old(batches)| - |batches|
    {
      batchCount := 0;
      ghost var before := batches;
      while true
        invariant Integrity(View())
        invariant BatchesLeft(batches, events, cutoff) == BatchesLeft(before, events, cutoff)
        invariant batchCount == |before| - |batches|
        decreases |batches|
      {
        var candidates := SomeOf(EmptyIds(batches, events, cutoff));
        if |candidates| == 0 {
          NothingEmpty(batches, events, cutoff);
          break;
        }
        MinusSize(batches, candidates);
        EmptyGone(batches, events, candidates, cutoff);
        DeleteBatches(candidates);
        batchCount := batchCount + |candidates|;
      }
    }

    method DeleteExpiredPlaybackEvidence(cutoff: int) returns (counts: Counts)
      requires Integrity(View())
      modifies this
      ensures View() == Retained(old(View()), cutoff)
      ensures counts == Removed(old(View()), View())
      ensures counts.corrections + |corrections| == |old(corrections)| && counts.events + |events| == |old(events)|
      ensures counts.batches + |batches| == |old(batches)|
      ensures Integrity(View())
    {
      ghost var t0 := View();
      var c1, e1 := DeleteExpired(Completed, cutoff);
      ghost var t1 := View();
      var c2, e2 := DeleteExpired(Interrupted, cutoff);
      ghost var t2 := View();
      var c3, e3 := DeleteExpired(Failed, cutoff);
      StatusesCompose(t0, t1, t2, View(), cutoff);
      var b := DeleteEmptyBatches(cutoff);
      counts := Counts(c1 + c2 + c3, e1 + e2 + e3, b);
    }
  }

  /** Some of the expired events of one status are gone, each with its corrections. */
  ghost predicate Partial(before: Tables, now: Tables, status: Status, cutoff: int) {
    && now.events.Keys <= before.events.Keys
    && EventsLeft(now.events, {status}, cutoff) == EventsLeft(before.events, {status}, cutoff)
    && now.corrections == CorrectionsLeft(before.corrections, now.events)
  }

  lemma NothingRemovedYet(t: Tables, status: Status, cutoff: int)
    requires Integrity(t)
    ensures Partial(t, t, status, cutoff)
  {
    assert CorrectionsLeft(t.corrections, t.events) == t.corrections;
  }

  lemma PartialContinues(before: Tables, now: Tables, ids: set<nat>, status: Status, cutoff: int)
    requires Partial(before, now, status, cutoff)
    requires ids <= ExpiredIds(now.events, status, cutoff)
    ensures var events := now.events - ids;
            Partial(before, Tables(events, CorrectionsLeft(now.corrections, events), now.batches), status, cutoff)
  {
    var events := now.events - ids;
    assert EventsLeft(events, {status}, cutoff) == EventsLeft(now.events, {status}, cutoff);
    CorrectionsCompose(before.corrections, now.events, events);
  }

  lemma NothingExpired(events: map<nat, EventRow>, status: Status, cutoff: int)
    requires ExpiredIds(events, status, cutoff) == {}
    ensures EventsLeft(events, {status}, cutoff) == events
  {
    assert forall e :: e in events ==> e !in ExpiredIds(events, status, cutoff);
  }

  lemma NothingEmpty(batches: map<nat, int>, events: map<nat, EventRow>, cutoff: int)
    requires EmptyIds(batches, events, cutoff) == {}
    ensures BatchesLeft(batches, events, cutoff) == batches
  {
    assert forall b :: b in batches ==> b !in EmptyIds(batches, events, cutoff);
  }

  lemma CorrectionsCompose(corrections: map<nat, nat>, larger: map<nat, EventRow>, smaller: map<nat, EventRow>)
    requires smaller.Keys <= larger.Keys
    ensures CorrectionsLeft(CorrectionsLeft(corrections, larger), smaller) == CorrectionsLeft(corrections, smaller)
  {}

  lemma EmptyGone(batches: map<nat, int>, events: map<nat, EventRow>, ids: set<nat>, cutoff: int)
    requires ids <= EmptyIds(batches, events, cutoff)
    ensures BatchesLeft(batches - ids, events, cutoff) == BatchesLeft(batches, events, cutoff)
  {}

  lemma StatusesCompose(t0: Tables, t1: Tables, t2: Tables, t3: Tables, cutoff: int)
    requires t1.events == EventsLeft(t0.events, {Completed}, cutoff)
    requires t1.corrections == CorrectionsLeft(t0.corrections, t1.events)
    requires t2.events == EventsLeft(t1.events, {Interrupted}, cutoff)
    requires t2.corrections == CorrectionsLeft(t1.corrections, t2.events)
    requires t3.events == EventsLeft(t2.events, {Failed}, cutoff)
    requires t3.corrections == CorrectionsLeft(t2.corrections, t3.events)
    ensures t3.events == EventsLeft(t0.events, ALL_STATUSES, cutoff)
    ensures t3.corrections == CorrectionsLeft(t0.corrections, t3.events)
  {
    CorrectionsCompose(t0.corrections, t1.events, t2.events);
    CorrectionsCompose(t0.corrections, t2.events, t3.events);
  }
}
