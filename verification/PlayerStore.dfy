/** The player's bounded queues: evidence batches limited in bytes, location points limited in number.
    What does not fit is removed oldest first and reported in a durable event. Every public operation is
    one database transaction. */
module PlayerStore {
  import opened Options

  /** A table row; `payload` is opaque here. */
  datatype Row<T> = Row(id: nat, bytes: nat, createdAt: int, payload: T)

  datatype QueueLoss = QueueLoss(removedBatches: nat, removedBytes: nat, targetBytes: int)

  datatype LocationLoss = LocationLoss(removedPoints: nat, removedBytes: nat, retainedPoints: nat)

  const QUEUE_CAPACITY: nat := 50_000

  // ---- Tables in query order: by creation time, then by insertion ----

  ghost predicate Ordered<T>(rows: seq<Row<T>>) {
    && (forall i, j :: 0 <= i < j < |rows| ==> rows[i].id != rows[j].id)
    && (forall i, j :: 0 <= i < j < |rows| ==> rows[i].createdAt <= rows[j].createdAt)
  }

  predicate Holds<T>(rows: seq<Row<T>>, id: nat) {
    exists i :: 0 <= i < |rows| && rows[i].id == id
  }

  /** The bytes of the first `n` rows. */
  function BytesUpTo<T>(rows: seq<Row<T>>, n: nat): nat
    requires n <= |rows|
  {
    if n == 0 then 0 else BytesUpTo(rows, n - 1) + rows[n - 1].bytes
  }

  function TotalBytes<T>(rows: seq<Row<T>>): nat {
    BytesUpTo(rows, |rows|)
  }

  /** Where a row created at `t` goes: after everything created no later. */
  function PlaceFor<T>(rows: seq<Row<T>>, t: int): (n: nat)
    ensures n <= |rows|
    ensures n > 0 ==> rows[n - 1].createdAt <= t
    ensures forall i :: n <= i < |rows| ==> rows[i].createdAt > t
  {
    if rows == [] || rows[|rows| - 1].createdAt <= t then |rows| else PlaceFor(rows[..|rows| - 1], t)
  }

  /** Insertion that ignores a conflict on the id. */
  function WithRow<T>(rows: seq<Row<T>>, r: Row<T>): seq<Row<T>> {
    if Holds(rows, r.id) then rows
    else var n := PlaceFor(rows, r.createdAt); rows[..n] + [r] + rows[n..]
  }

  function PositionOf<T>(rows: seq<Row<T>>, id: nat): (n: nat)
    ensures n <= |rows|
    ensures n < |rows| ==> rows[n].id == id
    ensures forall i :: 0 <= i < n ==> rows[i].id != id
  {
    if rows == [] then 0
    else
      var n := PositionOf(rows[..|rows| - 1], id);
      if n == |rows| - 1 && rows[n].id != id then |rows| else n
  }

  /** Deletion by id, which is the primary key. */
  function Without<T>(rows: seq<Row<T>>, id: nat): seq<Row<T>> {
    var n := PositionOf(rows, id);
    if n == |rows| then rows else rows[..n] + rows[n + 1..]
  }

  lemma WithRowOrdered<T>(rows: seq<Row<T>>, r: Row<T>)
    requires Ordered(rows)
    ensures Ordered(WithRow(rows, r))
  {
    var n := PlaceFor(rows, r.createdAt);
    var s := rows[..n] + [r] + rows[n..];
    if !Holds(rows, r.id) {
      forall i, j | 0 <= i < j < |s| ensures s[i].id != s[j].id && s[i].createdAt <= s[j].createdAt {
        InsertedAt(rows, r, n, i);
        InsertedAt(rows, r, n, j);
        PlaceBounds(rows, r.createdAt, i);
        PlaceBounds(rows, r.createdAt, j - 1);
      }
    }
  }

  lemma PlaceBounds<T>(rows: seq<Row<T>>, t: int, i: nat)
    requires Ordered(rows)
    ensures i < PlaceFor(rows, t) ==> rows[i].createdAt <= t
    ensures PlaceFor(rows, t) <= i < |rows| ==> rows[i].createdAt > t
  {}

  lemma InsertedAt<T>(rows: seq<Row<T>>, r: Row<T>, n: nat, i: nat)
    requires n <= |rows| && i <= |rows|
    ensures (rows[..n] + [r] + rows[n..])[i] == if i < n then rows[i] else if i == n then r else rows[i - 1]
  {}

  lemma WithoutOrdered<T>(rows: seq<Row<T>>, id: nat)
    requires Ordered(rows)
    ensures Ordered(Without(rows, id)) && !Holds(Without(rows, id), id)
    ensures !Holds(rows, id) ==> Without(rows, id) == rows
  {
    var n := PositionOf(rows, id);
    if n < |rows| {
      var s := Without(rows, id);
      assert forall i :: 0 <= i < n ==> s[i] == rows[i];
      assert forall i :: n <= i < |s| ==> s[i] == rows[i + 1];
    }
  }

  lemma WithoutFirst<T>(rows: seq<Row<T>>)
    requires rows != []
    ensures Without(rows, rows[0].id) == rows[1..]
  {
    var n := PositionOf(rows, rows[0].id);
    assert n == 0;
    assert rows[..0] + rows[1..] == rows[1..];
  }

  lemma SuffixOrdered<T>(rows: seq<Row<T>>, k: nat)
    requires Ordered(rows) && k <= |rows|
    ensures Ordered(rows[k..])
  {
    var s := rows[k..];
    assert forall i :: 0 <= i < |s| ==> s[i] == rows[k + i];
  }

  /** Deleting the head of what is left after `k` rows. */
  lemma WithoutHead<T>(rows: seq<Row<T>>, k: nat)
    requires Ordered(rows) && k < |rows|
    ensures Without(rows[k..], rows[k].id) == rows[k + 1..]
    ensures Ordered(rows[k + 1..])
  {
    WithoutFirst(rows[k..]);
    SuffixOrdered(rows, k + 1);
    assert rows[k..][1..] == rows[k + 1..];
  }

  lemma {:induction false} BytesSplit<T>(rows: seq<Row<T>>, n: nat, k: nat)
    requires n + k <= |rows|
    ensures BytesUpTo(rows, n + k) == BytesUpTo(rows, n) + BytesUpTo(rows[n..], k)
  {
    if k > 0 {
      BytesSplit(rows, n, k - 1);
      assert rows[n..][k - 1] == rows[n + (k - 1)];
    }
  }

  lemma {:induction false} BytesGrow<T>(rows: seq<Row<T>>, m: nat, n: nat)
    requires m <= n <= |rows|
    ensures BytesUpTo(rows, m) <= BytesUpTo(rows, n)
    decreases n
  {
    if m < n { BytesGrow(rows, m, n - 1); }
  }

  // ---- The eviction policy ----

  predicate ShouldForceQueueLoss(queueBytes: int, usableBytes: int, maxQueueBytes: int, minimumFreeBytes: int) {
    queueBytes > 0 && (queueBytes > maxQueueBytes || usableBytes < minimumFreeBytes)
  }

  function AtLeast(a: int, b: int): int {
    if a < b then b else a
  }

  function AtMost(a: int, b: int): int {
    if a > b then b else a
  }

  /** Kotlin divides toward zero; a queue limit is positive. */
  function ForcedQueueRemovalTargetBytes(
    queueBytes: int, usableBytes: int, maxQueueBytes: int, minimumFreeBytes: int): int
  {
    if !ShouldForceQueueLoss(queueBytes, usableBytes, maxQueueBytes, minimumFreeBytes) then 0
    else
      var forMinimumFree := AtLeast(minimumFreeBytes - usableBytes, 0);
      var forQueueMargin := AtLeast(queueBytes - maxQueueBytes * 3 / 4, 0);
      AtMost(AtLeast(forMinimumFree, forQueueMargin), queueBytes)
  }

  /** What a queue's limit asks for: nothing, or to remove the shortest oldest-first prefix that frees
      `target` bytes. */
  ghost predicate IsEviction<T>(rows: seq<Row<T>>, target: int, n: nat) {
    && n <= |rows| && BytesUpTo(rows, n) >= target
    && (n > 0 ==> BytesUpTo(rows, n - 1) < target)
  }

  /** After eviction the queue is within its limit; if anything had to go it ends at three quarters of the
      limit or less, or empty for want of disk space. */
  lemma EvictionIsEnough<T>(rows: seq<Row<T>>, usable: int, maxBytes: int, minimumFree: int, target: int, n: nat)
    requires maxBytes >= 1 && target == ForcedQueueRemovalTargetBytes(TotalBytes(rows), usable, maxBytes, minimumFree)
    requires IsEviction(rows, target, n)
    ensures TotalBytes(rows[n..]) <= maxBytes
    ensures n > 0 ==> TotalBytes(rows[n..]) <= maxBytes * 3 / 4
    ensures n > 0 && usable < minimumFree ==>
              BytesUpTo(rows, n) >= minimumFree - usable || TotalBytes(rows[n..]) == 0
    ensures n > 0 <==> ShouldForceQueueLoss(TotalBytes(rows), usable, maxBytes, minimumFree)
  {
    BytesSplit(rows, n, |rows| - n);
    TargetIsEnough(BytesUpTo(rows, n), TotalBytes(rows[n..]), usable, maxBytes, minimumFree);
  }

  /** No shorter prefix would have reached the target. */
  lemma EvictionIsShortest<T>(rows: seq<Row<T>>, target: int, n: nat, m: nat)
    requires IsEviction(rows, target, n) && m <= |rows|
    ensures BytesUpTo(rows, m) >= target <==> n <= m
  {
    if n <= m { BytesGrow(rows, n, m); } else { BytesGrow(rows, m, n - 1); }
  }

  lemma TargetIsEnough(removed: nat, rest: nat, usable: int, maxBytes: int, minimumFree: int)
    requires maxBytes >= 1
    ensures var target := ForcedQueueRemovalTargetBytes(removed + rest, usable, maxBytes, minimumFree);
            && target <= removed + rest
            && (target > 0 <==> ShouldForceQueueLoss(removed + rest, usable, maxBytes, minimumFree))
            && (removed >= target ==>
                  && rest <= maxBytes
                  && (target > 0 ==> rest <= maxBytes * 3 / 4)
                  && (target > 0 && usable < minimumFree ==> removed >= minimumFree - usable || rest == 0))
  {}

  /** What has to be removed so that the rest fits three quarters of the limit and the disk has its minimum
      free. */
  predicate FreesEnough(queueBytes: int, usableBytes: int, maxQueueBytes: int, minimumFreeBytes: int, removed: int) {
    4 * (queueBytes - removed) <= 3 * maxQueueBytes && usableBytes + removed >= minimumFreeBytes
  }

  /** The target is no more than needed: zero while the queue and the disk are within their limits, otherwise
      the least amount that frees enough, or the whole queue if not even that would. */
  lemma TargetIsLeast(queueBytes: nat, usableBytes: int, maxQueueBytes: int, minimumFreeBytes: int)
    requires maxQueueBytes >= 1
    ensures var target := ForcedQueueRemovalTargetBytes(queueBytes, usableBytes, maxQueueBytes, minimumFreeBytes);
            if queueBytes == 0 || (queueBytes <= maxQueueBytes && usableBytes >= minimumFreeBytes) then target == 0
            else
              && 0 < target <= queueBytes
              && (forall t: nat :: t < target ==>
                    !FreesEnough(queueBytes, usableBytes, maxQueueBytes, minimumFreeBytes, t))
              && (target < queueBytes ==>
                    FreesEnough(queueBytes, usableBytes, maxQueueBytes, minimumFreeBytes, target))
  {
    var margin := maxQueueBytes * 3 / 4;
    assert 4 * margin <= 3 * maxQueueBytes < 4 * margin + 4;
  }

  /** The ids of the oldest rows, as many as it takes to reach the target. */
  method OldestReaching<T>(rows: seq<Row<T>>, target: int) returns (ids: seq<nat>, bytes: nat)
    requires target <= TotalBytes(rows)
    ensures IsEviction(rows, target, |ids|) && bytes == BytesUpTo(rows, |ids|)
    ensures forall k :: 0 <= k < |ids| ==> ids[k] == rows[k].id
  {
    ids, bytes := [], 0;
    while |ids| < |rows| && bytes < target
      invariant |ids| <= |rows| && bytes == BytesUpTo(rows, |ids|)
      invariant |ids| > 0 ==> BytesUpTo(rows, |ids| - 1) < target
      invariant forall k :: 0 <= k < |ids| ==> ids[k] == rows[k].id
    {
      bytes := bytes + rows[|ids|].bytes;
      ids := ids + [rows[|ids|].id];
    }
  }

  class Store<T(==)> {
    var pending: seq<Row<T>>
    var queueLosses: seq<QueueLoss>
    var points: seq<Row<T>>
    var locationLosses: seq<LocationLoss>

    ghost predicate Valid()
      reads this
    {
      Ordered(pending) && Ordered(points)
    }

    constructor ()
      ensures Valid() && pending == [] && queueLosses == [] && points == [] && locationLosses == []
    {
      pending, queueLosses, points, locationLosses := [], [], [], [];
    }

    method InsertBatch(r: Row<T>)
      requires Valid()
      modifies `pending
      ensures Valid() && pending == WithRow(old(pending), r)
    {
      WithRowOrdered(pending, r);
      pending := WithRow(pending, r);
    }

    method AcknowledgeBatch(id: nat)
      requires Valid()
      modifies `pending
      ensures Valid() && pending == Without(old(pending), id)
    {
      WithoutOrdered(pending, id);
      pending := Without(pending, id);
    }

    method DiscardBatchAsPoison(id: nat) returns (discarded: bool)
      requires Valid()
      modifies `pending, `queueLosses
      ensures Valid() && discarded == Holds(old(pending), id) && pending == Without(old(pending), id)
      ensures !discarded ==> queueLosses == old(queueLosses)
      ensures discarded ==> exists r :: r in old(pending) && r.id == id
                              && queueLosses == old(queueLosses) + [QueueLoss(1, r.bytes, 0)]
    {
      WithoutOrdered(pending, id);
      var i := 0;
      while i < |pending| && pending[i].id != id
        invariant 0 <= i <= |pending|
        invariant forall k :: 0 <= k < i ==> pending[k].id != id
      {
        i := i + 1;
      }
      if i == |pending| {
        return false;
      }
      assert pending[i] in pending;
      queueLosses := queueLosses + [QueueLoss(1, pending[i].bytes, 0)];
      pending := Without(pending, id);
      discarded := true;
    }

    method DeleteBatches(ids: seq<nat>)
      requires Valid() && |ids| <= |pending| && forall k :: 0 <= k < |ids| ==> ids[k] == pending[k].id
      modifies `pending
      ensures Valid() && pending == old(pending)[|ids|..]
    {
      ghost var all := pending;
      var k := 0;
      while k < |ids|
        invariant 0 <= k <= |ids| && Valid() && pending == all[k..]
      {
        WithoutHead(all, k);
        pending := Without(pending, ids[k]);
        k := k + 1;
      }
    }

    /** Forced loss: exactly the shortest oldest-first prefix that reaches the target, reported with its
        number of rows and bytes. */
    method EnforceStoragePolicy(maxBytes: int, minimumFreeBytes: int, usableBytes: int) returns (removed: nat)
      requires Valid()
      modifies `pending, `queueLosses
      ensures Valid()
      ensures IsEviction(old(pending), ForcedQueueRemovalTargetBytes(TotalBytes(old(pending)), usableBytes,
                                         AtLeast(maxBytes, 1), minimumFreeBytes), removed)
      ensures pending == old(pending)[removed..]
      ensures removed == 0 ==> queueLosses == old(queueLosses)
      ensures removed > 0 ==> queueLosses == old(queueLosses) + [QueueLoss(removed, BytesUpTo(old(pending), removed),
                ForcedQueueRemovalTargetBytes(TotalBytes(old(pending)), usableBytes,
                                              AtLeast(maxBytes, 1), minimumFreeBytes))]
    {
      var rows := pending;
      var target := ForcedQueueRemovalTargetBytes(TotalBytes(rows), usableBytes,
                                                  AtLeast(maxBytes, 1), minimumFreeBytes);
      if target <= 0 { return 0; }
      TargetIsEnough(TotalBytes(rows), 0, usableBytes, AtLeast(maxBytes, 1), minimumFreeBytes);
      var batchesToRemove, removedBytes := OldestReaching(rows, target);
      removed := |batchesToRemove|;
      DeleteBatches(batchesToRemove);
      queueLosses := queueLosses + [QueueLoss(removed, removedBytes, target)];
    }

    /** Storing a batch never leaves the queue above its limit. */
    method EnqueueBatch(r: Row<T>, maxBytes: int, minimumFreeBytes: int, usableBytes: int) returns (removed: nat)
      requires Valid()
      modifies `pending, `queueLosses
      ensures Valid() && removed <= |WithRow(old(pending), r)| && pending == WithRow(old(pending), r)[removed..]
      ensures removed == 0 ==> queueLosses == old(queueLosses)
      ensures removed > 0 ==>
                var all := WithRow(old(pending), r);
                var target := ForcedQueueRemovalTargetBytes(TotalBytes(all), usableBytes, AtLeast(maxBytes, 1),
                                                            minimumFreeBytes);
                && IsEviction(all, target, removed)
                && queueLosses == old(queueLosses) + [QueueLoss(removed, BytesUpTo(all, removed), target)]
      ensures TotalBytes(pending) <= AtLeast(maxBytes, 1)
      ensures removed > 0 ==> TotalBytes(pending) <= AtLeast(maxBytes, 1) * 3 / 4
    {
      InsertBatch(r);
      ghost var all := pending;
      removed := EnforceStoragePolicy(maxBytes, minimumFreeBytes, usableBytes);
      ghost var target := ForcedQueueRemovalTargetBytes(TotalBytes(all), usableBytes,
                                                        AtLeast(maxBytes, 1), minimumFreeBytes);
      EvictionIsEnough(all, usableBytes, AtLeast(maxBytes, 1), minimumFreeBytes, target, removed);
    }

    /** One deletion by id, of the oldest point left. */
    method DeletePoint(id: nat, ghost all: seq<Row<T>>, ghost k: nat)
      requires Ordered(all) && k < |all| && all[k].id == id && points == all[k..]
      modifies `points
      ensures points == all[k + 1..]
    {
      WithoutHead(all, k);
      points := Without(points, id);
    }

    method DeletePoints(removals: seq<Row<T>>) returns (removedBytes: nat)
      requires Valid() && removals <= points
      modifies `points
      ensures Valid() && points == old(points)[|removals|..]
      ensures removedBytes == BytesUpTo(old(points), |removals|)
    {
      ghost var all := points;
      removedBytes := 0;
      var k := 0;
      while k < |removals|
        invariant 0 <= k <= |removals| && points == all[k..]
        invariant removedBytes == BytesUpTo(all, k)
      {
        var removal := removals[k];
        assert removal == all[k];
        removedBytes := removedBytes + removal.bytes;
        DeletePoint(removal.id, all, k);
        k := k + 1;
      }
      SuffixOrdered(all, k);
    }

    /** The location queue never exceeds its capacity; the oldest points make room, and the event states
        exactly how many points and bytes went and how many stayed. */
    method EnqueueLocationPoint(r: Row<T>) returns (loss: Option<LocationLoss>)
      requires Valid()
      modifies `points, `locationLosses
      ensures Valid() && |points| <= QUEUE_CAPACITY
      ensures var all := WithRow(old(points), r);
              var n := if |all| > QUEUE_CAPACITY then |all| - QUEUE_CAPACITY else 0;
              && points == all[n..]
              && loss == (if n == 0 then None else Some(LocationLoss(n, BytesUpTo(all, n), QUEUE_CAPACITY)))
              && locationLosses
                 == old(locationLosses) + if n == 0 then [] else [LocationLoss(n, BytesUpTo(all, n), QUEUE_CAPACITY)]
    {
      WithRowOrdered(points, r);
      points := WithRow(points, r);
      if |points| <= QUEUE_CAPACITY { return None; }
      var removeCount := |points| - QUEUE_CAPACITY;
      var removedBytes := DeletePoints(points[..removeCount]);
      var event := LocationLoss(removeCount, removedBytes, |points|);
      locationLosses := locationLosses + [event];
      loss := Some(event);
    }
  }
}
