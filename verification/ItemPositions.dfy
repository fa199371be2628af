/** Positions of a draft playlist's items. The database refuses any single row update that would give two
    items of the playlist the same position, so every intermediate state of a renumbering matters. */
module ItemPositions {
  import opened Evidence

  const SHIFT: nat := 10_000

  type Positions = map<nat, nat>

  predicate IsFree(positions: Positions, id: nat, p: nat) {
    forall i :: i in positions && i != id ==> positions[i] != p
  }

  /** `order` lists exactly the items; the first has position 1, the second 2, and so on. */
  ghost predicate Numbered(positions: Positions, order: seq<nat>) {
    && (forall k :: 0 <= k < |order| ==> order[k] in positions && positions[order[k]] == k + 1)
    && (forall i :: i in positions ==> 1 <= positions[i] <= |order| && order[positions[i] - 1] == i)
  }

  datatype ReorderResult = Done | InvalidOrder | PositionConflict

  lemma NumberedMembers(positions: Positions, order: seq<nat>)
    requires Numbered(positions, order)
    ensures Distinct(order) && Members(order) == positions.Keys && |positions| == |order|
  {
    forall i, j | 0 <= i < j < |order| ensures order[i] != order[j] {
      assert positions[order[i]] == i + 1 && positions[order[j]] == j + 1;
    }
    forall i ensures i in Members(order) <==> i in positions {
      if i in positions { assert order[positions[i] - 1] == i; }
    }
    DistinctBySize(order);
    assert |positions| == |positions.Keys|;
  }

  // ---- The order of a query by position ----

  ghost predicate Ascending(positions: Positions, ids: seq<nat>) {
    && (forall k :: 0 <= k < |ids| ==> ids[k] in positions)
    && (forall j, k :: 0 <= j < k < |ids| ==> positions[ids[j]] < positions[ids[k]])
  }

  /** What a query of all items ordered by position returns. */
  ghost predicate IsQuery(positions: Positions, ids: seq<nat>) {
    Ascending(positions, ids) && forall i :: i in positions ==> i in ids
  }

  lemma {:induction false} LowestExists(positions: Positions, todo: set<nat>)
    requires todo != {} && todo <= positions.Keys
    ensures exists i :: i in todo && forall j :: j in todo ==> positions[i] <= positions[j]
    decreases |todo|
  {
    var x :| x in todo;
    if todo - {x} != {} {
      LowestExists(positions, todo - {x});
      var i :| i in todo - {x} && forall j :: j in todo - {x} ==> positions[i] <= positions[j];
      assert positions[i] <= positions[x] ==> forall j :: j in todo ==> positions[i] <= positions[j];
      assert positions[x] <= positions[i] ==> forall j :: j in todo ==> positions[x] <= positions[j];
    } else {
      assert todo == {x};
    }
  }

  lemma AppendLowest(positions: Positions, ids: seq<nat>, i: nat)
    requires Ascending(positions, ids) && i in positions
    requires forall k :: 0 <= k < |ids| ==> positions[ids[k]] < positions[i]
    ensures Ascending(positions, ids + [i])
  {}

  method InPositionOrder(positions: Positions) returns (ids: seq<nat>)
    requires forall i, j :: i in positions && j in positions && i != j ==> positions[i] != positions[j]
    ensures IsQuery(positions, ids)
  {
    ids := [];
    var todo := positions.Keys;
    while todo != {}
      invariant todo <= positions.Keys && Ascending(positions, ids)
      invariant forall i :: i in positions ==> i in todo || i in ids
      invariant forall k, j :: 0 <= k < |ids| && j in todo ==> positions[ids[k]] < positions[j]
      decreases |todo|
    {
      LowestExists(positions, todo);
      var i :| i in todo && forall j :: j in todo ==> positions[i] <= positions[j];
      AppendLowest(positions, ids, i);
      assert forall x :: x in ids || x == i ==> x in ids + [i];
      ids := ids + [i];
      todo := todo - {i};
    }
  }

  /** Once the item at `k` is gone, the query returns the others in their old order. */
  lemma QueryAfterRemoval(positions: Positions, order: seq<nat>, k: nat, ids: seq<nat>, n: nat)
    requires Numbered(positions, order) && k < |order| && n <= |ids|
    requires IsQuery(positions - {order[k]}, ids)
    ensures forall j :: 0 <= j < n ==> positions[ids[j]] == if j < k then j + 1 else j + 2
    ensures n == |ids| ==> |ids| == |order| - 1
    decreases n
  {
    var left := positions - {order[k]};
    if n > 0 {
      QueryAfterRemoval(positions, order, k, ids, n - 1);
      // The item at the next position is in the query and nowhere before.
      var next := if n - 1 < k then n - 1 else n;
      assert left[ids[n - 1]] == positions[ids[n - 1]];
      assert order[positions[ids[n - 1]] - 1] == ids[n - 1];
      assert ids[n - 1] != order[k] && positions[ids[n - 1]] != k + 1;
      if n > 1 { assert left[ids[n - 2]] < left[ids[n - 1]]; }
      NextIsQueried(positions, order, k, ids, n - 1, next);
    }
    if n == |ids| && n < |order| - 1 {
      var next := if n < k then n else n + 1;
      assert order[next] in left;
      var x :| 0 <= x < |ids| && ids[x] == order[next];
    }
  }

  lemma NextIsQueried(positions: Positions, order: seq<nat>, k: nat, ids: seq<nat>, n: nat, next: nat)
    requires Numbered(positions, order) && k < |order| && n < |ids|
    requires IsQuery(positions - {order[k]}, ids)
    requires forall j :: 0 <= j < n ==> positions[ids[j]] == if j < k then j + 1 else j + 2
    requires next == (if n < k then n else n + 1) && positions[ids[n]] >= next + 1
    ensures positions[ids[n]] == next + 1
  {
    var left := positions - {order[k]};
    assert next < |order|;
    assert order[next] in left;
    var x :| 0 <= x < |ids| && ids[x] == order[next];
    assert left[ids[x]] == next + 1;
    assert x >= n;
  }

  // ---- The shift that makes room for a new order ----

  /** The table while the rows in `waiting` are still to be shifted. */
  function Shifted(positions: Positions, waiting: set<nat>): Positions {
    map i | i in positions :: if i in waiting then positions[i] else positions[i] + SHIFT
  }

  /** Whatever row the database shifts next, no other row has its new position. */
  ghost predicate ShiftNeverCollides(positions: Positions) {
    forall waiting: set<nat>, i: nat :: i in positions && i in waiting ==>
      IsFree(Shifted(positions, waiting), i, positions[i] + SHIFT)
  }

  lemma SmallShiftIsFree(positions: Positions, order: seq<nat>, waiting: set<nat>, i: nat)
    requires Numbered(positions, order) && |order| <= SHIFT && i in positions && i in waiting
    ensures IsFree(Shifted(positions, waiting), i, positions[i] + SHIFT)
  {
    forall j | j in positions && j != i ensures Shifted(positions, waiting)[j] != positions[i] + SHIFT {
      assert order[positions[i] - 1] == i && order[positions[j] - 1] == j;
    }
  }

  /** Shifting all rows by 10000 is safe in every order of updates exactly up to 10000 items. */
  lemma ShiftIsSafeUpToTenThousand(positions: Positions, order: seq<nat>)
    requires Numbered(positions, order)
    ensures ShiftNeverCollides(positions) <==> |order| <= SHIFT
  {
    if |order| > SHIFT {
      var all := positions.Keys;
      assert positions[order[0]] == 1 && positions[order[SHIFT]] == SHIFT + 1;
      assert Shifted(positions, all)[order[SHIFT]] == SHIFT + 1;
      assert !IsFree(Shifted(positions, all), order[0], positions[order[0]] + SHIFT);
    } else {
      forall waiting: set<nat>, i: nat | i in positions && i in waiting
        ensures IsFree(Shifted(positions, waiting), i, positions[i] + SHIFT)
      {
        SmallShiftIsFree(positions, order, waiting, i);
      }
    }
  }

  lemma ShiftNone(positions: Positions)
    ensures Shifted(positions, positions.Keys) == positions
  {}

  lemma ShiftOne(positions: Positions, waiting: set<nat>, i: nat)
    requires i in positions && i in waiting
    ensures Shifted(positions, waiting)[i] == positions[i]
    ensures Shifted(positions, waiting)[i := positions[i] + SHIFT] == Shifted(positions, waiting - {i})
  {}

  class PlaylistItems {
    var positions: Positions
    ghost var order: seq<nat>

    ghost predicate Valid()
      reads this
    {
      Numbered(positions, order)
    }

    constructor ()
      ensures Valid() && order == []
    {
      positions := map[];
      order := [];
    }

    /** One row update under the uniqueness constraint. */
    method SetPosition(id: nat, p: nat) returns (updated: bool)
      requires id in positions
      modifies `positions
      ensures updated == IsFree(old(positions), id, p)
      ensures positions == if updated then old(positions)[id := p] else old(positions)
    {
      updated := IsFree(positions, id, p);
      if updated { positions := positions[id := p]; }
    }

    /** A new item goes last; its position is always free. */
    method Add(id: nat) returns (added: bool)
      requires Valid() && id !in positions
      modifies this
      ensures added && Valid() && order == old(order) + [id]
    {
      NumberedMembers(positions, order);
      var position := |positions| + 1;
      if !IsFree(positions, id, position) { return false; }
      positions := positions[id := position];
      order := order + [id];
      added := true;
    }

    /** The items after the removed one move up, one row update at a time; none is ever refused. */
    method Remove(id: nat) returns (removed: bool)
      requires Valid() && id in positions
      modifies this
      ensures removed && Valid()
      ensures var k := old(positions[id]) - 1;
              0 <= k < |old(order)| && old(order)[k] == id && order == old(order)[..k] + old(order)[k + 1..]
    {
      ghost var before, k := positions, positions[id] - 1;
      assert order[k] == id;
      positions := positions - {id};
      var remaining := InPositionOrder(positions);
      RemovalQuery(before, order, k, remaining);
      order := remaining;
      removed := Renumber(remaining, k);
    }

    /** The loop of the removal: positions 1, 2, ... in query order. It would fail with the first row update the
        database refuses. */
    method Renumber(remaining: seq<nat>, ghost k: nat) returns (completed: bool)
      requires Renumbering(positions, remaining, 0, k)
      modifies `positions
      ensures completed && Numbered(positions, remaining)
    {
      var i := 0;
      while i < |remaining|
        invariant 0 <= i <= |remaining| && Renumbering(positions, remaining, i, k)
      {
        var item := remaining[i];
        RenumberOne(positions, remaining, i, k);
        if positions[item] != i + 1 {
          var updated := SetPosition(item, i + 1);
          if !updated { return false; }
        }
        i := i + 1;
      }
      RenumberedIsNumbered(positions, remaining, k);
      completed := true;
    }

    /** The requested order is taken exactly if it names every item once; otherwise nothing changes. */
    method Reorder(ids: seq<nat>) returns (result: ReorderResult)
      requires Valid()
      modifies this
      ensures Valid()
      ensures result.InvalidOrder? <==> !(Distinct(ids) && Members(ids) == Members(old(order)))
      ensures result.Done? ==> order == ids
      ensures !result.Done? ==> order == old(order) && positions == old(positions)
      ensures |old(order)| <= SHIFT ==> !result.PositionConflict?
    {
      DistinctBySize(ids);
      NumberedMembers(positions, order);
      if |ids| != |Members(ids)| || Members(ids) != positions.Keys { return InvalidOrder; }
      var before := positions;
      var shifted := ShiftAll();
      if !shifted {
        positions := before;
        return PositionConflict;
      }
      assert |order| == |ids| by { DistinctBySize(order); }
      var placed := PlaceAll(ids, before);
      if !placed {
        positions := before;
        return PositionConflict;
      }
      order := ids;
      result := Done;
    }

    /** One statement for all rows; the database may visit them in any order. */
    method ShiftAll() returns (shifted: bool)
      requires Valid()
      modifies `positions
      ensures shifted ==> positions == Shifted(old(positions), {})
      ensures |order| <= SHIFT ==> shifted
    {
      ghost var before, rows := positions, order;
      var todo := positions.Keys;
      ShiftNone(before);
      while todo != {}
        invariant todo <= before.Keys && positions == Shifted(before, todo)
        decreases |todo|
      {
        var i :| i in todo;
        ShiftOne(before, todo, i);
        if |rows| <= SHIFT { SmallShiftIsFree(before, rows, todo, i); }
        var updated := SetPosition(i, positions[i] + SHIFT);
        if !updated { return false; }
        todo := todo - {i};
      }
      shifted := true;
    }

    method PlaceAll(ids: seq<nat>, ghost before: Positions) returns (placed: bool)
      requires Numbered(before, order) && Distinct(ids) && Members(ids) == before.Keys && |ids| == |order|
      requires positions == Shifted(before, {})
      modifies `positions
      ensures placed ==> Numbered(positions, ids)
      ensures |order| <= SHIFT ==> placed
    {
      var i := 0;
      ShiftedIsPlacing(before, order, ids);
      while i < |ids|
        invariant 0 <= i <= |ids| && Placing(positions, ids, i)
      {
        if |ids| <= SHIFT { PlaceIsFree(positions, ids, i); }
        PlaceOne(positions, ids, i);
        var updated := SetPosition(ids[i], i + 1);
        if !updated { return false; }
        i := i + 1;
      }
      placed := true;
      PlacedIsNumbered(positions, ids);
    }
  }

  lemma RestIsQuery(positions: Positions, order: seq<nat>, k: nat, ids: seq<nat>)
    requires Numbered(positions, order) && k < |order| && |ids| == |order| - 1
    requires forall j :: 0 <= j < |ids| ==> ids[j] in positions && positions[ids[j]] == if j < k then j + 1 else j + 2
    ensures ids == order[..k] + order[k + 1..]
  {
    forall j | 0 <= j < |ids| ensures ids[j] == order[if j < k then j else j + 1] {
      assert order[positions[ids[j]] - 1] == ids[j];
    }
  }

  /** The first `i` items after a removal at `k` are renumbered, the others not yet. */
  ghost predicate Renumbering(positions: Positions, rest: seq<nat>, i: nat, k: nat) {
    && (forall x :: x in positions ==> x in rest)
    && (forall j :: 0 <= j < |rest| ==>
          rest[j] in positions && positions[rest[j]] == if j < i || j < k then j + 1 else j + 2)
  }

  lemma RenumberOne(positions: Positions, rest: seq<nat>, i: nat, k: nat)
    requires i < |rest| && Renumbering(positions, rest, i, k)
    ensures positions[rest[i]] != i + 1 ==>
              IsFree(positions, rest[i], i + 1) && Renumbering(positions[rest[i] := i + 1], rest, i + 1, k)
    ensures positions[rest[i]] == i + 1 ==> Renumbering(positions, rest, i + 1, k)
  {
    forall j | 0 <= j < |rest| && j != i ensures rest[j] != rest[i] {
      assert positions[rest[j]] != positions[rest[i]];
    }
    forall x | x in positions && x != rest[i] && positions[rest[i]] != i + 1 ensures positions[x] != i + 1 {
      var j :| 0 <= j < |rest| && rest[j] == x;
    }
  }

  lemma RenumberedIsNumbered(positions: Positions, rest: seq<nat>, k: nat)
    requires Renumbering(positions, rest, |rest|, k)
    ensures Numbered(positions, rest)
  {
    forall x | x in positions ensures 1 <= positions[x] <= |rest| && rest[positions[x] - 1] == x {
      var j :| 0 <= j < |rest| && rest[j] == x;
    }
  }

  lemma RemovalQuery(positions: Positions, order: seq<nat>, k: nat, ids: seq<nat>)
    requires Numbered(positions, order) && k < |order| && IsQuery(positions - {order[k]}, ids)
    ensures Renumbering(positions - {order[k]}, ids, 0, k) && ids == order[..k] + order[k + 1..]
  {
    QueryAfterRemoval(positions, order, k, ids, |ids|);
    RestIsQuery(positions, order, k, ids);
  }

  /** The first `i` of the requested items are in place, the others still shifted. */
  ghost predicate Placing(positions: Positions, ids: seq<nat>, i: nat)
    requires i <= |ids|
  {
    && Distinct(ids) && (forall x :: x in positions ==> x in ids)
    && (forall j :: 0 <= j < |ids| ==> ids[j] in positions)
    && (forall j :: 0 <= j < i ==> positions[ids[j]] == j + 1)
    && (forall j :: i <= j < |ids| ==> positions[ids[j]] > SHIFT)
  }

  lemma ShiftedIsPlacing(before: Positions, order: seq<nat>, ids: seq<nat>)
    requires Numbered(before, order) && Distinct(ids) && Members(ids) == before.Keys
    ensures Placing(Shifted(before, {}), ids, 0)
  {
    forall j | 0 <= j < |ids| ensures ids[j] in before {
      assert ids[j] in Members(ids);
    }
    forall x | x in before ensures x in ids {
      assert x in Members(ids);
    }
  }

  lemma PlacedIsNumbered(positions: Positions, ids: seq<nat>)
    requires Placing(positions, ids, |ids|)
    ensures Numbered(positions, ids)
  {
    forall x | x in positions ensures 1 <= positions[x] <= |ids| && ids[positions[x] - 1] == x {
      var j :| 0 <= j < |ids| && ids[j] == x;
    }
  }

  lemma PlaceOne(positions: Positions, ids: seq<nat>, i: nat)
    requires i < |ids| && Placing(positions, ids, i)
    ensures Placing(positions[ids[i] := i + 1], ids, i + 1)
  {}

  lemma PlaceIsFree(positions: Positions, ids: seq<nat>, i: nat)
    requires i < |ids| <= SHIFT && Placing(positions, ids, i)
    ensures IsFree(positions, ids[i], i + 1)
  {
    forall x | x in positions && x != ids[i] ensures positions[x] != i + 1 {
      var j :| 0 <= j < |ids| && ids[j] == x;
    }
  }
}
