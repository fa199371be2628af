/** One loop of the playlist as an upload batch: every entry once, whatever interrupted the loop. */
module LoopBatch {
  import opened Options
  import opened Evidence

  datatype Manifest = Manifest(id: nat, entries: seq<nat>)

  const LOOP_INTERRUPTED := "loop_interrupted_before_entry"

  function Filler(id: nat, entry: nat, now: int): Event {
    Event(id, entry, now, Some(now), 0, Interrupted, LOOP_INTERRUPTED)
  }

  /** One event for each of `entries` that has no result yet; `newIds[i]` is the new id for position `i`. */
  function Fillers(entries: seq<nat>, recorded: set<nat>, newIds: seq<nat>, now: int): seq<Event>
    requires |newIds| >= |entries|
  {
    if entries == [] then []
    else
      var last := |entries| - 1;
      Fillers(entries[..last], recorded, newIds, now)
      + if entries[last] in recorded || entries[last] in entries[..last] then []
        else [Filler(newIds[last], entries[last], now)]
  }

  function RecordedItems(results: seq<Event>): set<nat> {
    set i | 0 <= i < |results| :: results[i].item
  }

  function LoopEvents(m: Manifest, results: seq<Event>, newIds: seq<nat>, now: int): seq<Event>
    requires |newIds| >= |m.entries|
  {
    results + Fillers(m.entries, RecordedItems(results), newIds, now)
  }

  lemma NextFiller(entries: seq<nat>, i: nat, recorded: set<nat>, newIds: seq<nat>, now: int)
    requires i < |entries| <= |newIds|
    ensures Members(entries[..i + 1]) == Members(entries[..i]) + {entries[i]}
    ensures Fillers(entries[..i + 1], recorded, newIds, now)
            == Fillers(entries[..i], recorded, newIds, now)
               + if entries[i] in recorded + Members(entries[..i]) then [] else [Filler(newIds[i], entries[i], now)]
  {
    assert entries[..i + 1][..i] == entries[..i];
    assert entries[..i + 1] == entries[..i] + [entries[i]];
  }

  method BuildLoopBatch(m: Manifest, results: seq<Event>, newIds: seq<nat>, now: int,
                        batchId: nat, startedAt: int, endedAt: int, capturedOffline: bool) returns (b: Batch)
    requires |newIds| >= |m.entries|
    ensures b == Batch(batchId, m.id, startedAt, endedAt, capturedOffline, LoopEvents(m, results, newIds, now))
  {
    var complete := results;
    var recorded := RecordedItems(results);
    var index := 0;
    while index < |m.entries|
      invariant 0 <= index <= |m.entries|
      invariant complete == results + Fillers(m.entries[..index], RecordedItems(results), newIds, now)
      invariant recorded == RecordedItems(results) + Members(m.entries[..index])
    {
      var entry := m.entries[index];
      NextFiller(m.entries, index, RecordedItems(results), newIds, now);
      if entry !in recorded {
        complete := complete + [Filler(newIds[index], entry, now)];
        recorded := recorded + {entry};
      }
      index := index + 1;
    }
    assert m.entries[..index] == m.entries;
    b := Batch(batchId, m.id, startedAt, endedAt, capturedOffline, complete);
  }

  // ---- What the server checks of the entries ----

  /** The items of a batch name every entry once: a permutation of the manifest. */
  ghost predicate CoversOnce(entries: seq<nat>, items: seq<nat>) {
    Distinct(items) && SameMembers(items, entries)
  }

  lemma CoversOnceIsPermutation(entries: seq<nat>, items: seq<nat>)
    requires Distinct(entries)
    ensures CoversOnce(entries, items) <==> multiset(items) == multiset(entries)
    ensures CoversOnce(entries, items) ==> |items| == |entries|
  {
    if CoversOnce(entries, items) {
      DistinctPermutation(items, entries);
    }
    if multiset(items) == multiset(entries) {
      PermutationDistinct(items, entries);
    }
  }

  predicate ResultsFit(entries: seq<nat>, items: seq<nat>) {
    Distinct(items) && forall i :: 0 <= i < |items| ==> items[i] in entries
  }

  lemma {:induction false} FillersComplete(entries: seq<nat>, recorded: set<nat>, newIds: seq<nat>, now: int)
    requires |newIds| >= |entries|
    ensures var items := Items(Fillers(entries, recorded, newIds, now));
            && (forall x :: x in items <==> x in entries && x !in recorded)
            && Distinct(items)
  {
    if entries != [] {
      var last := |entries| - 1;
      FillersComplete(entries[..last], recorded, newIds, now);
      var before := Fillers(entries[..last], recorded, newIds, now);
      var items := Items(before);
      assert forall x :: x in entries <==> x in entries[..last] || x == entries[last];
      if entries[last] in recorded || entries[last] in entries[..last] {
        assert Fillers(entries, recorded, newIds, now) == before;
      } else {
        assert Items(Fillers(entries, recorded, newIds, now)) == items + [entries[last]];
      }
    }
  }

  /** The built items cover the manifest exactly if the loop's own results name known entries, each once. */
  lemma ItemsCoverManifest(m: Manifest, results: seq<Event>, newIds: seq<nat>, now: int)
    requires Distinct(m.entries) && |newIds| >= |m.entries|
    ensures CoversOnce(m.entries, Items(LoopEvents(m, results, newIds, now))) <==> ResultsFit(m.entries, Items(results))
  {
    var fill := Fillers(m.entries, RecordedItems(results), newIds, now);
    var items := Items(LoopEvents(m, results, newIds, now));
    assert items == Items(results) + Items(fill);
    FillersComplete(m.entries, RecordedItems(results), newIds, now);
    if CoversOnce(m.entries, items) {
      assert forall i :: 0 <= i < |results| ==> items[i] == Items(results)[i];
    }
    if ResultsFit(m.entries, Items(results)) {
      ConcatFits(m.entries, Items(results), Items(fill), RecordedItems(results));
    }
  }

  /** Ids drawn for fillers: distinct, and not those of results. */
  ghost predicate NewFor(newIds: seq<nat>, results: seq<Event>) {
    Distinct(newIds) && forall x :: x in newIds ==> x !in Ids(results)
  }

  lemma BuiltIdsDistinct(m: Manifest, results: seq<Event>, newIds: seq<nat>, now: int)
    requires |newIds| >= |m.entries| && NewFor(newIds, results)
    ensures Distinct(Ids(LoopEvents(m, results, newIds, now))) <==> Distinct(Ids(results))
  {
    var own := Ids(results);
    var fill := Ids(Fillers(m.entries, RecordedItems(results), newIds, now));
    var ids := Ids(LoopEvents(m, results, newIds, now));
    assert ids == own + fill;
    FillerIdsAreNew(m.entries, RecordedItems(results), newIds, now);
    forall k | 0 <= k < |fill| ensures fill[k] !in own {
      assert fill[k] in fill && fill[k] in newIds[..|m.entries|];
      assert fill[k] in newIds;
    }
    assert forall i :: 0 <= i < |own| ==> ids[i] == own[i] && own[i] in own;
    assert forall i :: |own| <= i < |ids| ==> ids[i] == fill[i - |own|];
  }

  /** A built batch passes the server's checks on the batch as a whole exactly if the loop's results have ids
      of their own and name known entries, each at most once; then its events are a permutation of the
      manifest. */
  lemma BatchCoversManifest(m: Manifest, results: seq<Event>, newIds: seq<nat>, now: int)
    requires Distinct(m.entries) && |newIds| >= |m.entries| && NewFor(newIds, results)
    ensures var events := LoopEvents(m, results, newIds, now);
            && (OnePerEntry(Members(m.entries), events)
                <==> ResultsFit(m.entries, Items(results)) && Distinct(Ids(results)))
            && (OnePerEntry(Members(m.entries), events) ==>
                  multiset(Items(events)) == multiset(m.entries) && |events| == |m.entries|)
  {
    var items := Items(LoopEvents(m, results, newIds, now));
    ItemsCoverManifest(m, results, newIds, now);
    BuiltIdsDistinct(m, results, newIds, now);
    SameMembersSameSet(items, m.entries);
    CoversOnceIsPermutation(m.entries, items);
  }

  lemma ConcatFits(entries: seq<nat>, own: seq<nat>, fill: seq<nat>, recorded: set<nat>)
    requires Distinct(entries) && ResultsFit(entries, own) && Distinct(fill)
    requires forall x :: x in recorded <==> x in own
    requires forall x :: x in fill <==> x in entries && x !in recorded
    ensures CoversOnce(entries, own + fill)
  {
    var items := own + fill;
    forall i, j | 0 <= i < j < |items| ensures items[i] != items[j] {
      if i < |own| <= j {
        assert own[i] in own && fill[j - |own|] in fill;
      }
    }
    DistinctPermutation(items, entries);
  }

  /** Fresh ids and distinct results make the event ids of the batch distinct. */
  lemma {:induction false} FillerIdsAreNew(entries: seq<nat>, recorded: set<nat>, newIds: seq<nat>, now: int)
    requires |newIds| >= |entries| && Distinct(newIds)
    ensures var ids := Ids(Fillers(entries, recorded, newIds, now));
            && Distinct(ids) && forall x :: x in ids ==> x in newIds[..|entries|]
  {
    if entries != [] {
      var last := |entries| - 1;
      FillerIdsAreNew(entries[..last], recorded, newIds, now);
      var ids := Ids(Fillers(entries[..last], recorded, newIds, now));
      assert forall x :: x in newIds[..last] ==> x in newIds[..|entries|];
      assert newIds[last] in newIds[..|entries|];
      assert newIds[last] !in ids;
      if !(entries[last] in recorded || entries[last] in entries[..last]) {
        assert Ids(Fillers(entries, recorded, newIds, now)) == ids + [newIds[last]];
      }
    }
  }

  // ---- Recovery ----

  predicate ResultSound(e: Event) {
    e.endedAt.Some? && e.durationMs >= 0
  }

  predicate ValidResults(results: seq<Event>, entries: seq<nat>) {
    (forall i :: 0 <= i < |results| ==> ResultSound(results[i])) && ResultsFit(entries, Items(results))
  }

  method ValidatePersistedLoopResults(results: seq<Event>, entries: seq<nat>) returns (valid: bool)
    ensures valid == ValidResults(results, entries)
  {
    var seen: set<nat> := {};
    var i := 0;
    while i < |results|
      invariant 0 <= i <= |results|
      invariant ValidResults(results[..i], entries)
      invariant seen == RecordedItems(results[..i])
    {
      var r := results[i];
      assert results[..i + 1] == results[..i] + [r];
      if r.endedAt.None? || r.item !in entries || r.item in seen || r.durationMs < 0 {
        assert !ValidResults(results, entries) by {
          assert Items(results)[i] == r.item;
          if r.item in seen {
            var k :| 0 <= k < i && results[..i][k].item == r.item;
            assert Items(results)[k] == Items(results)[i];
          }
        }
        return false;
      }
      assert Items(results[..i + 1]) == Items(results[..i]) + [r.item];
      assert forall k :: 0 <= k < i ==> results[..i][k].item in seen;
      seen := seen + {r.item};
      i := i + 1;
    }
    assert results[..i] == results;
    valid := true;
  }

  function IndexOf(s: seq<nat>, x: nat): (i: nat)
    requires x in s
    ensures i < |s| && s[i] == x && x !in s[..i]
  {
    if s[0] == x then 0 else
      assert x in s[1..];
      1 + IndexOf(s[1..], x)
  }

  /** Where the next loop starts after a recovery. */
  function ResumeIndex(entries: seq<nat>, recorded: seq<nat>, checkpoint: Option<nat>): (i: nat)
    requires entries != []
    requires checkpoint.Some? ==> checkpoint.value < |entries|
    requires checkpoint.None? ==> recorded != [] && recorded[|recorded| - 1] in entries
    ensures i < |entries|
  {
    if checkpoint.Some? then checkpoint.value
    else (IndexOf(entries, recorded[|recorded| - 1]) + 1) % |entries|
  }

  lemma NextIndex(k: nat, n: nat)
    requires k < n
    ensures (k + 1) % n == if k + 1 < n then k + 1 else 0
  {
    if k + 1 == n {
      assert n % n == 0;
    }
  }

  lemma ResumesAfterLast(entries: seq<nat>, recorded: seq<nat>)
    requires entries != [] && recorded != [] && recorded[|recorded| - 1] in entries
    ensures var i := ResumeIndex(entries, recorded, None);
            recorded[|recorded| - 1] == entries[if i == 0 then |entries| - 1 else i - 1]
  {
    NextIndex(IndexOf(entries, recorded[|recorded| - 1]), |entries|);
  }

  /** Playback resumes at the interrupted entry, or cyclically after the last one recorded. */
  lemma ResumesWhereItStopped(entries: seq<nat>, recorded: seq<nat>, checkpoint: Option<nat>, at: nat)
    requires Distinct(entries) && at < |entries|
    requires checkpoint.Some? ==> checkpoint.value < |entries|
    requires checkpoint.None? ==> recorded != [] && recorded[|recorded| - 1] in entries
    ensures ResumeIndex(entries, recorded, checkpoint) == at <==>
            (if checkpoint.Some? then checkpoint == Some(at)
             else recorded[|recorded| - 1] == entries[if at == 0 then |entries| - 1 else at - 1])
  {
    if checkpoint.None? {
      ResumesAfterLast(entries, recorded);
    }
  }
}
