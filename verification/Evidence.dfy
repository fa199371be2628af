/** Playback evidence as it travels from the player's loop to the server's rows. Times are microseconds,
    durations milliseconds; UUIDs are natural numbers. */
module Evidence {
  import opened Options

  datatype Status = Completed | Interrupted | Failed

  datatype Event = Event(
    id: nat,
    item: nat,
    startedAt: int,
    endedAt: Option<int>,
    durationMs: int,
    status: Status,
    failureReason: string)

  datatype Batch = Batch(
    id: nat,
    playlistId: nat,
    loopStartedAt: int,
    loopEndedAt: int,
    capturedOffline: bool,
    events: seq<Event>)

  function Items(events: seq<Event>): (r: seq<nat>)
    ensures |r| == |events| && forall i :: 0 <= i < |r| ==> r[i] == events[i].item
  {
    seq(|events|, i requires 0 <= i < |events| => events[i].item)
  }

  function Ids(events: seq<Event>): (r: seq<nat>)
    ensures |r| == |events| && forall i :: 0 <= i < |r| ==> r[i] == events[i].id
  {
    seq(|events|, i requires 0 <= i < |events| => events[i].id)
  }

  predicate Distinct(s: seq<nat>) {
    forall i, j :: 0 <= i < j < |s| ==> s[i] != s[j]
  }

  predicate SameMembers(a: seq<nat>, b: seq<nat>) {
    (forall x :: x in a ==> x in b) && (forall x :: x in b ==> x in a)
  }

  lemma {:induction false} CountInDistinct(s: seq<nat>, x: nat)
    requires Distinct(s)
    ensures multiset(s)[x] == if x in s then 1 else 0
  {
    if s != [] {
      var last := |s| - 1;
      assert s == s[..last] + [s[last]];
      CountInDistinct(s[..last], x);
      assert x in s <==> x in s[..last] || x == s[last];
    }
  }

  /** Distinct sequences with the same members are permutations of each other. */
  lemma DistinctPermutation(a: seq<nat>, b: seq<nat>)
    requires Distinct(a) && Distinct(b) && SameMembers(a, b)
    ensures multiset(a) == multiset(b) && |a| == |b|
  {
    forall x: nat ensures multiset(a)[x] == multiset(b)[x] {
      CountInDistinct(a, x);
      CountInDistinct(b, x);
    }
    assert multiset(a) == multiset(b);
    assert |multiset(a)| == |a| && |multiset(b)| == |b|;
  }

  /** A permutation of a distinct sequence is distinct. */
  lemma PermutationDistinct(a: seq<nat>, b: seq<nat>)
    requires Distinct(b) && multiset(a) == multiset(b)
    ensures Distinct(a) && SameMembers(a, b) && |a| == |b|
  {
    assert |multiset(a)| == |a| && |multiset(b)| == |b|;
    forall x: nat ensures x in a <==> x in b {
      assert x in a <==> x in multiset(a);
      assert x in b <==> x in multiset(b);
    }
    forall i, j | 0 <= i < j < |a| ensures a[i] != a[j] {
      CountInDistinct(b, a[i]);
      assert a == a[..j] + a[j..];
      assert a[i] in a[..j] && a[j] in a[j..];
      assert multiset(a)[a[i]] == multiset(a[..j])[a[i]] + multiset(a[j..])[a[i]];
    }
  }

  function Members(s: seq<nat>): set<nat> {
    set x | x in s
  }

  /** The usual duplicate test: a sequence is as long as its set exactly if it has no duplicates. */
  lemma {:induction false} DistinctBySize(s: seq<nat>)
    ensures |Members(s)| <= |s|
    ensures |Members(s)| == |s| <==> Distinct(s)
  {
    if s != [] {
      var last := |s| - 1;
      DistinctBySize(s[..last]);
      assert s == s[..last] + [s[last]];
      assert Members(s) == Members(s[..last]) + {s[last]};
      if s[last] in s[..last] {
        assert Members(s) == Members(s[..last]);
      }
    }
  }

  lemma SameMembersSameSet(a: seq<nat>, b: seq<nat>)
    ensures SameMembers(a, b) <==> Members(a) == Members(b)
  {
    forall x ensures x in a <==> x in Members(a) {}
    forall x ensures x in b <==> x in Members(b) {}
  }

  /** The server's checks on a batch as a whole: event ids of their own, and one event for every entry. */
  ghost predicate OnePerEntry(entries: set<nat>, events: seq<Event>) {
    Distinct(Ids(events)) && Distinct(Items(events)) && Members(Items(events)) == entries
  }
}
