/** Validation of a synchronized manifest, once its JSON fields have been read as values.
    Lengths are bytes and milliseconds; `sha256` stands for the digest text. */
module ManifestPolicy {
  import opened Options

  const MAX_MEDIA_CACHE_BYTES := 10 * 1024 * 1024 * 1024
  const MAX_EVENT_QUEUE_BYTES := 500 * 1024 * 1024
  const MAX_MINIMUM_FREE_BYTES := 4 * 1024 * 1024 * 1024
  const MAX_PLAYLIST_ITEMS := 100
  const IMAGE_DURATION_MS := 15_000
  const MAX_VIDEO_DURATION_MS := 15_000
  const MAX_PLAYLIST_DURATION_MS := 30 * 60 * 1000
  const LONG_MAX := 0x7FFF_FFFF_FFFF_FFFF
  const INT_MAX := 0x7FFF_FFFF

  datatype Kind = Image | Video
  /** What must agree between all entries that name the same media file. */
  datatype Definition = Definition(kind: Kind, sha256: int, sizeBytes: int, durationMs: int)
  datatype Item = Item(entryId: nat, mediaId: nat, definition: Definition)
  datatype Identity = Identity(id: nat, version: int)
  datatype Manifest = Manifest(
    identity: Identity,
    startsAt: int,
    endsAt: int,
    cacheBytes: int,
    eventQueueBytes: int,
    minimumFreeBytes: int,
    items: seq<Item>)

  /** The bytes of the first `n` entries. */
  function TotalBytes(items: seq<Item>, n: nat): int
    requires n <= |items|
  {
    if n == 0 then 0 else TotalBytes(items, n - 1) + items[n - 1].definition.sizeBytes
  }

  /** The playing time of the first `n` entries. */
  function TotalDurationMs(items: seq<Item>, n: nat): int
    requires n <= |items|
  {
    if n == 0 then 0 else TotalDurationMs(items, n - 1) + items[n - 1].definition.durationMs
  }

  predicate DistinctEntries(items: seq<Item>) {
    forall i, j :: 0 <= i < j < |items| ==> items[i].entryId != items[j].entryId
  }

  predicate ConsistentDefinitions(items: seq<Item>) {
    forall i, j :: 0 <= i < j < |items| && items[i].mediaId == items[j].mediaId ==>
      items[i].definition == items[j].definition
  }

  predicate ItemInBounds(item: Item, cacheBytes: int) {
    && 1 <= item.definition.sizeBytes <= cacheBytes
    && 1 <= item.definition.durationMs <= MAX_VIDEO_DURATION_MS
    && (item.definition.kind.Image? ==> item.definition.durationMs == IMAGE_DURATION_MS)
  }

  predicate ValidHeader(m: Manifest) {
    && 1 <= m.identity.version <= INT_MAX
    && m.endsAt > m.startsAt
    && 1 <= m.cacheBytes <= MAX_MEDIA_CACHE_BYTES
    && 1 <= m.eventQueueBytes <= MAX_EVENT_QUEUE_BYTES
    && 0 <= m.minimumFreeBytes <= MAX_MINIMUM_FREE_BYTES
    && 1 <= |m.items| <= MAX_PLAYLIST_ITEMS
  }

  predicate ValidEntries(items: seq<Item>, cacheBytes: int) {
    && (forall i :: 0 <= i < |items| ==> ItemInBounds(items[i], cacheBytes))
    && DistinctEntries(items) && ConsistentDefinitions(items)
  }

  /** What a manifest must satisfy, stated over all its entries at once. */
  predicate ValidManifest(m: Manifest) {
    && ValidHeader(m)
    && ValidEntries(m.items, m.cacheBytes)
    && TotalBytes(m.items, |m.items|) <= m.cacheBytes
    && TotalDurationMs(m.items, |m.items|) <= MAX_PLAYLIST_DURATION_MS
  }

  function EntryIds(items: seq<Item>): set<nat> {
    set i | 0 <= i < |items| :: items[i].entryId
  }

  /** `definitions` maps exactly the media named in `items`, each to its definition there. */
  ghost predicate Defines(definitions: map<nat, Definition>, items: seq<Item>) {
    && (forall i :: 0 <= i < |items| ==>
          items[i].mediaId in definitions && definitions[items[i].mediaId] == items[i].definition)
    && (forall media :: media in definitions ==> exists i :: 0 <= i < |items| && items[i].mediaId == media)
  }

  lemma ExtendDistinct(items: seq<Item>, item: Item)
    requires DistinctEntries(items)
    ensures DistinctEntries(items + [item]) <==> item.entryId !in EntryIds(items)
  {
    var all := items + [item];
    if item.entryId in EntryIds(items) {
      var i :| 0 <= i < |items| && items[i].entryId == item.entryId;
      assert all[i].entryId == all[|items|].entryId;
    }
  }

  lemma ExtendConsistent(items: seq<Item>, item: Item, definitions: map<nat, Definition>)
    requires ConsistentDefinitions(items) && Defines(definitions, items)
    ensures ConsistentDefinitions(items + [item])
            <==> item.mediaId !in definitions || definitions[item.mediaId] == item.definition
    ensures ConsistentDefinitions(items + [item])
            ==> Defines(definitions[item.mediaId := item.definition], items + [item])
  {
    var all := items + [item];
    if item.mediaId in definitions && definitions[item.mediaId] != item.definition {
      var i :| 0 <= i < |items| && items[i].mediaId == item.mediaId;
      assert all[i].mediaId == all[|items|].mediaId && all[i].definition != all[|items|].definition;
    } else {
      var extended := definitions[item.mediaId := item.definition];
      forall media | media in extended ensures exists i :: 0 <= i < |all| && all[i].mediaId == media {
        if media == item.mediaId {
          assert all[|items|].mediaId == media;
        } else {
          var i :| 0 <= i < |items| && items[i].mediaId == media;
          assert all[i].mediaId == media;
        }
      }
    }
  }

  /** The part of `ValidManifest` that the loop has established for the entries already seen. */
  ghost predicate Accepted(items: seq<Item>, cacheBytes: int, entryIds: set<nat>, definitions: map<nat, Definition>) {
    && (forall i :: 0 <= i < |items| ==> ItemInBounds(items[i], cacheBytes))
    && DistinctEntries(items) && entryIds == EntryIds(items)
    && ConsistentDefinitions(items) && Defines(definitions, items)
  }

  predicate Acceptable(item: Item, cacheBytes: int, entryIds: set<nat>, definitions: map<nat, Definition>) {
    && item.entryId !in entryIds
    && ItemInBounds(item, cacheBytes)
    && (item.mediaId !in definitions || definitions[item.mediaId] == item.definition)
  }

  lemma ExtendAccepted(
    items: seq<Item>, i: nat, cacheBytes: int, entryIds: set<nat>, definitions: map<nat, Definition>)
    requires i < |items| && Accepted(items[..i], cacheBytes, entryIds, definitions)
    ensures Acceptable(items[i], cacheBytes, entryIds, definitions)
            ==> Accepted(items[..i + 1], cacheBytes, entryIds + {items[i].entryId},
                         definitions[items[i].mediaId := items[i].definition])
    ensures !Acceptable(items[i], cacheBytes, entryIds, definitions)
            ==> !DistinctEntries(items) || !ConsistentDefinitions(items) || !ItemInBounds(items[i], cacheBytes)
  {
    var prefix, item := items[..i], items[i];
    assert items[..i + 1] == prefix + [item];
    ExtendDistinct(prefix, item);
    ExtendConsistent(prefix, item, definitions);
    assert EntryIds(prefix + [item]) == EntryIds(prefix) + {item.entryId} by {
      forall e | e in EntryIds(prefix) + {item.entryId} ensures e in EntryIds(prefix + [item]) {
        if e in EntryIds(prefix) {
          var k :| 0 <= k < |prefix| && prefix[k].entryId == e;
          assert (prefix + [item])[k].entryId == e;
        } else {
          assert (prefix + [item])[|prefix|].entryId == e;
        }
      }
    }
    assert DistinctEntries(items) ==> DistinctEntries(items[..i + 1]);
    assert ConsistentDefinitions(items) ==> ConsistentDefinitions(items[..i + 1]);
  }

  lemma {:induction false} TotalsAreSmall(items: seq<Item>, n: nat, cacheBytes: int)
    requires n <= |items| && n <= MAX_PLAYLIST_ITEMS && cacheBytes <= MAX_MEDIA_CACHE_BYTES
    requires forall j :: 0 <= j < n ==> ItemInBounds(items[j], cacheBytes)
    ensures 0 <= TotalBytes(items, n) <= n * MAX_MEDIA_CACHE_BYTES
    ensures 0 <= TotalDurationMs(items, n) <= n * MAX_VIDEO_DURATION_MS
  {
    if n > 0 {
      TotalsAreSmall(items, n - 1, cacheBytes);
      assert ItemInBounds(items[n - 1], cacheBytes);
    }
  }

  /** The totals count every entry, a file as often as it is listed. */
  lemma {:induction false} UniformTotals(items: seq<Item>, n: nat, bytes: int, durationMs: int)
    requires n <= |items|
    requires forall j :: 0 <= j < n ==>
               items[j].definition.sizeBytes == bytes && items[j].definition.durationMs == durationMs
    ensures TotalBytes(items, n) == n * bytes && TotalDurationMs(items, n) == n * durationMs
  {
    if n > 0 {
      UniformTotals(items, n - 1, bytes, durationMs);
      assert n * bytes == (n - 1) * bytes + bytes && n * durationMs == (n - 1) * durationMs + durationMs;
    }
  }

  /** What is accepted, in plain figures. The bound on the playlist's duration is not among them: 100 entries of
      at most 15 seconds never reach it. */
  lemma ValidExactly(m: Manifest)
    ensures ValidManifest(m) <==>
              && 1 <= m.identity.version < 0x8000_0000 && m.startsAt < m.endsAt
              && 1 <= m.cacheBytes <= 10_737_418_240 && 1 <= m.eventQueueBytes <= 524_288_000
              && 0 <= m.minimumFreeBytes <= 4_294_967_296 && 1 <= |m.items| <= 100
              && (forall i :: 0 <= i < |m.items| ==>
                    var d := m.items[i].definition;
                    && 1 <= d.sizeBytes <= m.cacheBytes && 1 <= d.durationMs <= 15_000
                    && (d.kind.Image? ==> d.durationMs == 15_000))
              && (forall i, j :: 0 <= i < j < |m.items| ==>
                    && m.items[i].entryId != m.items[j].entryId
                    && (m.items[i].mediaId == m.items[j].mediaId ==> m.items[i].definition == m.items[j].definition))
              && TotalBytes(m.items, |m.items|) <= m.cacheBytes
  {
    if ValidHeader(m) && forall i :: 0 <= i < |m.items| ==> ItemInBounds(m.items[i], m.cacheBytes) {
      TotalsAreSmall(m.items, |m.items|, m.cacheBytes);
    }
  }

  /** Neither guarded addition can reject the next entry. */
  lemma NoOverflow(items: seq<Item>, n: nat, cacheBytes: int, item: Item)
    requires n <= |items| && n <= MAX_PLAYLIST_ITEMS && cacheBytes <= MAX_MEDIA_CACHE_BYTES
    requires forall j :: 0 <= j < n ==> ItemInBounds(items[..n][j], cacheBytes)
    requires ItemInBounds(item, cacheBytes)
    ensures TotalBytes(items, n) <= LONG_MAX - item.definition.sizeBytes
    ensures TotalDurationMs(items, n) <= LONG_MAX - item.definition.durationMs
  {
    assert forall j :: 0 <= j < n ==> items[..n][j] == items[j];
    TotalsAreSmall(items, n, cacheBytes);
  }

  /** One pass over the entries decides `ValidEntries`; the guarded additions never overflow a
      64-bit total, so they never reject. */
  method CheckEntries(items: seq<Item>, cacheBytes: int) returns (ok: bool, totalBytes: int, totalDurationMs: int)
    requires |items| <= MAX_PLAYLIST_ITEMS && 1 <= cacheBytes <= MAX_MEDIA_CACHE_BYTES
    ensures ok <==> ValidEntries(items, cacheBytes)
    ensures ok ==> totalBytes == TotalBytes(items, |items|) && totalDurationMs == TotalDurationMs(items, |items|)
  {
    var entryIds: set<nat> := {};
    var definitions: map<nat, Definition> := map[];
    totalBytes, totalDurationMs := 0, 0;
    for i := 0 to |items|
      invariant Accepted(items[..i], cacheBytes, entryIds, definitions)
      invariant totalBytes == TotalBytes(items, i) && totalDurationMs == TotalDurationMs(items, i)
    {
      var item := items[i];
      ExtendAccepted(items, i, cacheBytes, entryIds, definitions);
      if !Acceptable(item, cacheBytes, entryIds, definitions) { return false, 0, 0; }
      NoOverflow(items, i, cacheBytes, item);
      if totalBytes > LONG_MAX - item.definition.sizeBytes || totalDurationMs > LONG_MAX - item.definition.durationMs {
        return false, 0, 0;
      }
      entryIds := entryIds + {item.entryId};
      totalBytes := totalBytes + item.definition.sizeBytes;
      totalDurationMs := totalDurationMs + item.definition.durationMs;
      definitions := definitions[item.mediaId := item.definition];
    }
    assert items[..|items|] == items;
    ok := true;
  }

  method Validate(m: Manifest) returns (identity: Option<Identity>)
    ensures identity == if ValidManifest(m) then Some(m.identity) else None
  {
    if !ValidHeader(m) { return None; }
    var ok, totalBytes, totalDurationMs := CheckEntries(m.items, m.cacheBytes);
    if !ok || totalBytes > m.cacheBytes || totalDurationMs > MAX_PLAYLIST_DURATION_MS { return None; }
    return Some(m.identity);
  }
}
