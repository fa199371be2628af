/** Reporting abnormal exits from Android's exit history: a cursor decides which entries of a snapshot are
    new. The stable event id is an arbitrary function of the entry; nothing needs it to be injective. */
module ExitHistory {
  datatype Entry = Entry(timestampMs: int, androidReason: int)

  type IdFunction = Entry -> nat

  datatype Cursor = Cursor(timestampMs: int, identities: set<nat>)

  const NO_HISTORY := Cursor(-1, {})

  predicate IsFresh(id: IdFunction, e: Entry, c: Cursor) {
    && e.timestampMs >= 0
    && (e.timestampMs > c.timestampMs || (e.timestampMs == c.timestampMs && id(e) !in c.identities))
  }

  function UnprocessedEntries(id: IdFunction, entries: seq<Entry>, c: Cursor): (r: seq<Entry>)
    ensures forall e :: e in r <==> e in entries && IsFresh(id, e, c)
  {
    if entries == [] then []
    else
      var last := entries[|entries| - 1];
      assert entries == entries[..|entries| - 1] + [last];
      UnprocessedEntries(id, entries[..|entries| - 1], c) + if IsFresh(id, last, c) then [last] else []
  }

  /** The latest valid timestamp, -1 if there is none. */
  function LatestTimestamp(entries: seq<Entry>): (t: int)
    ensures t >= -1
    ensures forall e :: e in entries && e.timestampMs >= 0 ==> e.timestampMs <= t
    ensures t >= 0 ==> exists e :: e in entries && e.timestampMs == t
  {
    if entries == [] then -1
    else
      var last := entries[|entries| - 1];
      assert entries == entries[..|entries| - 1] + [last];
      var t := LatestTimestamp(entries[..|entries| - 1]);
      if last.timestampMs > t then last.timestampMs else t
  }

  function IdentitiesAt(id: IdFunction, entries: seq<Entry>, t: int): set<nat> {
    set e | e in entries && e.timestampMs == t :: id(e)
  }

  function AdvanceCursor(id: IdFunction, c: Cursor, entries: seq<Entry>): Cursor {
    var latest := LatestTimestamp(entries);
    if latest < 0 then c
    else if latest > c.timestampMs then Cursor(latest, IdentitiesAt(id, entries, latest))
    else if latest == c.timestampMs then Cursor(latest, c.identities + IdentitiesAt(id, entries, latest))
    else c
  }

  // ---- Rounds: each reads a snapshot, reports what is new and stores the cursor in one transaction ----

  /** A round without new entries stores nothing. */
  function CursorAfter(id: IdFunction, snapshots: seq<seq<Entry>>): Cursor {
    if snapshots == [] then NO_HISTORY
    else
      var c := CursorAfter(id, snapshots[..|snapshots| - 1]);
      var entries := snapshots[|snapshots| - 1];
      if UnprocessedEntries(id, entries, c) == [] then c else AdvanceCursor(id, c, entries)
  }

  function Reported(id: IdFunction, snapshots: seq<seq<Entry>>, k: nat): seq<Entry>
    requires k < |snapshots|
  {
    UnprocessedEntries(id, snapshots[k], CursorAfter(id, snapshots[..k]))
  }

  // ---- The cursor summarises everything ever read ----

  ghost predicate SeenBefore(snapshots: seq<seq<Entry>>, n: nat, e: Entry)
    requires n <= |snapshots|
  {
    e.timestampMs >= 0 && exists j :: 0 <= j < n && e in snapshots[j]
  }

  /** The cursor holds the latest timestamp of all entries seen and the ids seen at it. */
  ghost predicate Summarises(id: IdFunction, c: Cursor, snapshots: seq<seq<Entry>>, n: nat)
    requires n <= |snapshots|
  {
    && c.timestampMs >= -1
    && (c.timestampMs == -1 ==> c.identities == {})
    && (forall e :: SeenBefore(snapshots, n, e) ==> e.timestampMs <= c.timestampMs)
    && (forall e :: SeenBefore(snapshots, n, e) && e.timestampMs == c.timestampMs ==> id(e) in c.identities)
    && (c.timestampMs >= 0 ==> exists e :: SeenBefore(snapshots, n, e) && e.timestampMs == c.timestampMs)
    && (forall x :: x in c.identities ==>
          exists e :: SeenBefore(snapshots, n, e) && e.timestampMs == c.timestampMs && id(e) == x)
  }

  /** Without new entries the cursor would not move: returning early loses nothing. */
  lemma NothingNewNothingMoves(id: IdFunction, c: Cursor, entries: seq<Entry>)
    requires UnprocessedEntries(id, entries, c) == []
    ensures AdvanceCursor(id, c, entries) == c
  {
    var latest := LatestTimestamp(entries);
    forall e | e in entries ensures !IsFresh(id, e, c) {
      assert e !in UnprocessedEntries(id, entries, c);
    }
    if latest == c.timestampMs && latest >= 0 {
      assert IdentitiesAt(id, entries, latest) <= c.identities;
    }
  }

  lemma {:induction false} CursorSummarises(id: IdFunction, snapshots: seq<seq<Entry>>, n: nat)
    requires n <= |snapshots|
    ensures Summarises(id, CursorAfter(id, snapshots[..n]), snapshots, n)
  {
    if n > 0 {
      CursorSummarises(id, snapshots, n - 1);
      assert snapshots[..n][..n - 1] == snapshots[..n - 1];
      var c := CursorAfter(id, snapshots[..n - 1]);
      if UnprocessedEntries(id, snapshots[n - 1], c) == [] {
        NothingNewNothingMoves(id, c, snapshots[n - 1]);
      }
      assert CursorAfter(id, snapshots[..n]) == AdvanceCursor(id, c, snapshots[n - 1]);
      AdvanceSummarises(id, c, snapshots, n - 1);
    }
  }

  lemma AdvanceSummarises(id: IdFunction, c: Cursor, snapshots: seq<seq<Entry>>, n: nat)
    requires n < |snapshots| && Summarises(id, c, snapshots, n)
    ensures Summarises(id, AdvanceCursor(id, c, snapshots[n]), snapshots, n + 1)
  {
    var entries := snapshots[n];
    var c' := AdvanceCursor(id, c, entries);
    forall e
      ensures SeenBefore(snapshots, n + 1, e) <==> SeenBefore(snapshots, n, e) || (e.timestampMs >= 0 && e in entries)
    {
      if SeenBefore(snapshots, n, e) {
        var j :| 0 <= j < n && e in snapshots[j];
        assert j < n + 1;
      }
    }
  }

  /** An entry is reported in a round exactly if every entry of earlier snapshots is older, or as old with
      another id. So each entry is reported in at most one round, everything newer than all that was read
      before is reported, and a snapshot read again yields nothing. */
  lemma ReportedExactlyWhenNew(id: IdFunction, snapshots: seq<seq<Entry>>, k: nat, e: Entry)
    requires k < |snapshots|
    ensures e in Reported(id, snapshots, k) <==>
            && e in snapshots[k] && e.timestampMs >= 0
            && forall f :: SeenBefore(snapshots, k, f) ==>
                 f.timestampMs < e.timestampMs || (f.timestampMs == e.timestampMs && id(f) != id(e))
  {
    CursorSummarises(id, snapshots, k);
  }

  lemma ReportedOnce(id: IdFunction, snapshots: seq<seq<Entry>>, j: nat, k: nat, e: Entry)
    requires j < k < |snapshots| && e in Reported(id, snapshots, j)
    ensures e !in Reported(id, snapshots, k)
  {
    ReportedExactlyWhenNew(id, snapshots, j, e);
    ReportedExactlyWhenNew(id, snapshots, k, e);
    assert SeenBefore(snapshots, k, e);
  }

  /** The cursor never goes back: no entry it covers is ever fresh again. */
  lemma {:induction false} CursorIsMonotone(id: IdFunction, snapshots: seq<seq<Entry>>, j: nat, k: nat, e: Entry)
    requires j <= k <= |snapshots| && IsFresh(id, e, CursorAfter(id, snapshots[..k]))
    ensures IsFresh(id, e, CursorAfter(id, snapshots[..j]))
    ensures CursorAfter(id, snapshots[..j]).timestampMs <= CursorAfter(id, snapshots[..k]).timestampMs
    decreases k
  {
    if j < k {
      assert snapshots[..k][..k - 1] == snapshots[..k - 1];
      CursorIsMonotone(id, snapshots, j, k - 1, e);
    }
  }
}
