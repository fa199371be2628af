/** The playlist every display shows now, and the prediction of its next change. */
module EffectivePlaylist {
  import opened Options
  import opened PlaylistLifecycle

  /** A row as a query returns it. A sequence of entries fixes how the database breaks ties: among equal
      sort keys the earlier entry comes first. */
  datatype Entry = Entry(id: nat, row: Row)

  /** The three queries, tried in this order. */
  datatype Tier = UrgentTier | ScheduledTier | FallbackTier

  predicate Eligible(e: Entry, tier: Tier, now: int) {
    && e.row.status.Published? && e.row.startsAt <= now
    && match tier
       case UrgentTier =>
         e.row.urgent && e.row.publishedAt.Some? && e.row.publishedAt.value <= now && e.row.endsAt > now
       case ScheduledTier => e.row.endsAt > now
       case FallbackTier => e.row.publishedAt.Some? && e.row.publishedAt.value <= now
  }

  function PublishedAt(e: Entry): int {
    if e.row.publishedAt.Some? then e.row.publishedAt.value else 0
  }

  /** The sort orders: `a` comes strictly before `b`. */
  predicate Before(a: Entry, b: Entry, tier: Tier) {
    if tier.ScheduledTier? then
      || a.row.startsAt > b.row.startsAt
      || (a.row.startsAt == b.row.startsAt
          && (PublishedAt(a) > PublishedAt(b) || (PublishedAt(a) == PublishedAt(b) && a.id > b.id)))
    else PublishedAt(a) > PublishedAt(b)
  }

  /** Entry `i` is the first row of the query. */
  ghost predicate IsFirst(rows: seq<Entry>, tier: Tier, now: int, i: nat) {
    && i < |rows| && Eligible(rows[i], tier, now)
    && (forall j :: 0 <= j < i && Eligible(rows[j], tier, now) ==> Before(rows[i], rows[j], tier))
    && (forall j :: i < j < |rows| && Eligible(rows[j], tier, now) ==> !Before(rows[j], rows[i], tier))
  }

  function First(rows: seq<Entry>, tier: Tier, now: int): (r: Option<nat>)
    ensures r.None? ==> forall j :: 0 <= j < |rows| ==> !Eligible(rows[j], tier, now)
    ensures r.Some? ==> IsFirst(rows, tier, now, r.value)
  {
    if rows == [] then None
    else
      var last := |rows| - 1;
      var r := First(rows[..last], tier, now);
      if Eligible(rows[last], tier, now) && (r.None? || Before(rows[last], rows[r.value], tier)) then Some(last) else r
  }

  function ActivePlaylist(rows: seq<Entry>, now: int): Option<nat> {
    var urgent := First(rows, UrgentTier, now);
    if urgent.Some? then urgent
    else
      var scheduled := First(rows, ScheduledTier, now);
      if scheduled.Some? then scheduled else First(rows, FallbackTier, now)
  }

  function Earlier(a: Option<int>, b: Option<int>): Option<int> {
    if a.None? then b else if b.None? || a.value <= b.value then a else b
  }

  function NextStart(rows: seq<Entry>, now: int): (r: Option<int>)
    ensures r.Some? ==> r.value > now
    ensures forall j :: 0 <= j < |rows| && rows[j].row.status.Published? && rows[j].row.startsAt > now ==>
              r.Some? && r.value <= rows[j].row.startsAt
  {
    if rows == [] then None
    else
      var last := |rows| - 1;
      var r := NextStart(rows[..last], now);
      var e := rows[last].row;
      Earlier(r, if e.status.Published? && e.startsAt > now then Some(e.startsAt) else None)
  }

  function NextTransition(rows: seq<Entry>, now: int): (r: Option<int>)
    ensures r.Some? ==> r.value > now
  {
    var current := ActivePlaylist(rows, now);
    var end := if current.Some? && current.value < |rows| && rows[current.value].row.endsAt > now
               then Some(rows[current.value].row.endsAt) else None;
    Earlier(NextStart(rows, now), end)
  }

  // ---- Soundness of the prediction ----

  ghost predicate PublishedBy(rows: seq<Entry>, now: int) {
    forall j :: 0 <= j < |rows| && rows[j].row.status.Published? ==>
      rows[j].row.publishedAt.Some? && rows[j].row.publishedAt.value <= now
  }

  ghost predicate BeforeTransition(rows: seq<Entry>, now: int, t: int) {
    now <= t && (NextTransition(rows, now).None? || t < NextTransition(rows, now).value)
  }

  /** No row becomes eligible before the predicted time. */
  lemma NothingAppears(rows: seq<Entry>, now: int, t: int, tier: Tier)
    requires PublishedBy(rows, now) && BeforeTransition(rows, now, t)
    ensures forall j :: 0 <= j < |rows| && Eligible(rows[j], tier, t) ==> Eligible(rows[j], tier, now)
  {
    assert forall j :: 0 <= j < |rows| && rows[j].row.status.Published? && rows[j].row.startsAt > now ==>
        t < rows[j].row.startsAt;
  }

  /** The first row stays first while it is eligible and nothing joins. */
  lemma FirstStays(rows: seq<Entry>, tier: Tier, now: int, t: int)
    requires forall j :: 0 <= j < |rows| && Eligible(rows[j], tier, t) ==> Eligible(rows[j], tier, now)
    requires var r := First(rows, tier, now); r.Some? ==> Eligible(rows[r.value], tier, t)
    ensures First(rows, tier, t) == First(rows, tier, now)
  {
    var r, r' := First(rows, tier, now), First(rows, tier, t);
    if r.Some? {
      assert Eligible(rows[r.value], tier, t);
      assert IsFirst(rows, tier, t, r.value) && IsFirst(rows, tier, t, r'.value);
      assert !(r'.value < r.value) && !(r.value < r'.value);
    }
  }

  /** The effective playlist is constant up to the predicted time, and for ever if there is none,
      whatever fixed order the database uses for ties. */
  lemma PredictionIsSound(rows: seq<Entry>, now: int, t: int)
    requires PublishedBy(rows, now) && BeforeTransition(rows, now, t)
    ensures ActivePlaylist(rows, t) == ActivePlaylist(rows, now)
  {
    NothingAppears(rows, now, t, UrgentTier);
    NothingAppears(rows, now, t, ScheduledTier);
    NothingAppears(rows, now, t, FallbackTier);
    FirstStays(rows, UrgentTier, now, t);
    if First(rows, UrgentTier, now).None? {
      FirstStays(rows, ScheduledTier, now, t);
      if First(rows, ScheduledTier, now).None? {
        FirstStays(rows, FallbackTier, now, t);
      }
    }
  }

  /** What the prediction looks for: a published playlist starts at `t`, or the current one ends. */
  ghost predicate IsEvent(rows: seq<Entry>, now: int, t: int) {
    || (exists j :: 0 <= j < |rows| && StartsAt(rows[j], t))
    || (var current := ActivePlaylist(rows, now);
        current.Some? && current.value < |rows| && rows[current.value].row.endsAt == t)
  }

  predicate StartsAt(e: Entry, t: int) {
    e.row.status.Published? && e.row.startsAt == t
  }

  lemma {:induction false} NextStartIsAStart(rows: seq<Entry>, now: int)
    requires NextStart(rows, now).Some?
    ensures exists j :: 0 <= j < |rows| && StartsAt(rows[j], NextStart(rows, now).value)
  {
    var last := |rows| - 1;
    if StartsAt(rows[last], NextStart(rows, now).value) {
    } else {
      NextStartIsAStart(rows[..last], now);
      var j :| 0 <= j < last && StartsAt(rows[..last][j], NextStart(rows[..last], now).value);
      assert rows[j] == rows[..last][j];
    }
  }

  /** The prediction is exactly the first such event after now, and absent if there is none. */
  lemma PredictionIsFirstEvent(rows: seq<Entry>, now: int)
    ensures var r := NextTransition(rows, now);
            && (r.Some? ==> r.value > now && IsEvent(rows, now, r.value))
            && forall t :: t > now && IsEvent(rows, now, t) ==> r.Some? && r.value <= t
  {
    var r := NextTransition(rows, now);
    if NextStart(rows, now).Some? {
      NextStartIsAStart(rows, now);
    }
    forall t | t > now && IsEvent(rows, now, t) ensures r.Some? && r.value <= t {
      if j :| 0 <= j < |rows| && StartsAt(rows[j], t) {
        assert NextStart(rows, now).Some? && NextStart(rows, now).value <= t;
      }
    }
  }

  // ---- In every reachable state of the dashboard ----

  /** `rows` lists the published rows of the table in some order. */
  ghost predicate Lists(rows: seq<Entry>, table: Rows) {
    && (forall k :: 0 <= k < |rows| ==>
          rows[k].id in table && rows[k].row == table[rows[k].id] && rows[k].row.status.Published?)
    && (forall i :: i in table && table[i].status.Published? ==> Listed(rows, i))
    && (forall j, k :: 0 <= j < k < |rows| ==> rows[j].id != rows[k].id)
  }

  ghost predicate Listed(rows: seq<Entry>, i: nat) {
    exists k :: 0 <= k < |rows| && rows[k].id == i
  }

  lemma ReachableIsPublishedBy(s0: State, steps: seq<Step>, s: State, rows: seq<Entry>)
    requires Initial(s0) && Run(s0, steps, s) && Lists(rows, s.rows)
    ensures PublishedBy(rows, s.now)
  {
    RunInv(s0, steps, s);
    forall j | 0 <= j < |rows| && rows[j].row.status.Published?
      ensures rows[j].row.publishedAt.Some? && rows[j].row.publishedAt.value <= s.now
    {
      assert RowSound(s.rows, rows[j].id, s.now);
    }
  }

  lemma StepKeepsPublished(s: State, step: Step, rows: seq<Entry>)
    requires Enabled(s, step) && !step.Publish? && Lists(rows, s.rows)
    ensures Lists(rows, Next(s, step).rows) && s.now <= Next(s, step).now
  {}

  /** Without a publication the published rows stay what they are. */
  lemma {:induction false} RunKeepsPublished(s: State, steps: seq<Step>, s': State, rows: seq<Entry>)
    requires Run(s, steps, s') && Lists(rows, s.rows)
    requires forall k :: 0 <= k < |steps| ==> !steps[k].Publish?
    ensures Lists(rows, s'.rows) && s.now <= s'.now
    decreases |steps|
  {
    if steps != [] {
      StepKeepsPublished(s, steps[0], rows);
      RunKeepsPublished(Next(s, steps[0]), steps[1..], s', rows);
    }
  }

  /** Over any run without a publication, whatever else the dashboard does to drafts and media, the
      effective playlist of a reachable state stays the same up to the moment predicted there. */
  lemma EffectivePlaylistIsConstant(
    s0: State, steps: seq<Step>, s: State, steps': seq<Step>, s': State, rows: seq<Entry>)
    requires Initial(s0) && Run(s0, steps, s) && Lists(rows, s.rows)
    requires Run(s, steps', s') && forall k :: 0 <= k < |steps'| ==> !steps'[k].Publish?
    requires BeforeTransition(rows, s.now, s'.now)
    ensures Lists(rows, s'.rows) && ActivePlaylist(rows, s'.now) == ActivePlaylist(rows, s.now)
  {
    ReachableIsPublishedBy(s0, steps, s, rows);
    RunKeepsPublished(s, steps', s', rows);
    PredictionIsSound(rows, s.now, s'.now);
  }

  /** An urgent replacement in force is what every display shows; no tie-break is ever needed. */
  lemma UrgentReplacementWins(s0: State, steps: seq<Step>, s: State, rows: seq<Entry>, i: nat)
    requires Initial(s0) && Run(s0, steps, s) && Lists(rows, s.rows)
    requires i < |rows| && InForce(rows[i].row, s.now)
    ensures ActivePlaylist(rows, s.now) == Some(i)
  {
    ReachableIsPublishedBy(s0, steps, s, rows);
    UrgentWindowsDisjoint(s0, steps, s);
    assert Eligible(rows[i], UrgentTier, s.now);
    var r := First(rows, UrgentTier, s.now);
    assert InForce(rows[r.value].row, s.now);
    assert rows[r.value].id == rows[i].id;
  }

  predicate OpenAt(r: Row, t: int) {
    r.status.Published? && r.startsAt <= t < r.endsAt
  }

  /** `a` started later than `b`, or as late and was published later, or as late too and has no smaller id. */
  predicate StartedLast(a: Entry, b: Entry) {
    && a.row.publishedAt.Some? && b.row.publishedAt.Some?
    && (|| a.row.startsAt > b.row.startsAt
        || (a.row.startsAt == b.row.startsAt && a.row.publishedAt.value > b.row.publishedAt.value)
        || (a.row.startsAt == b.row.startsAt && a.row.publishedAt.value == b.row.publishedAt.value && a.id >= b.id))
  }

  lemma OpenWins(rows: seq<Entry>, now: int)
    requires PublishedBy(rows, now) && exists j :: 0 <= j < |rows| && OpenAt(rows[j].row, now)
    ensures var r := ActivePlaylist(rows, now);
            && r.Some? && r.value < |rows| && OpenAt(rows[r.value].row, now)
            && ((forall j :: 0 <= j < |rows| && OpenAt(rows[j].row, now) ==> !rows[j].row.urgent) ==>
                  forall j :: 0 <= j < |rows| && OpenAt(rows[j].row, now) ==>
                    StartedLast(rows[r.value], rows[j]))
  {
    forall j | 0 <= j < |rows| ensures OpenAt(rows[j].row, now) <==> Eligible(rows[j], ScheduledTier, now) {}
    var j :| 0 <= j < |rows| && OpenAt(rows[j].row, now);
    assert Eligible(rows[j], ScheduledTier, now);
  }

  lemma FallbackWins(rows: seq<Entry>, now: int)
    requires PublishedBy(rows, now) && forall j :: 0 <= j < |rows| ==> !OpenAt(rows[j].row, now)
    requires forall j :: 0 <= j < |rows| ==> rows[j].row.status.Published?
    ensures var r := ActivePlaylist(rows, now);
            && (r.None? <==> forall j :: 0 <= j < |rows| ==> rows[j].row.startsAt > now)
            && (r.Some? ==> r.value < |rows| && rows[r.value].row.startsAt <= now)
            && (r.Some? ==>
                  forall j :: 0 <= j < |rows| && rows[j].row.startsAt <= now ==>
                    && rows[r.value].row.publishedAt.Some? && rows[j].row.publishedAt.Some?
                    && rows[r.value].row.publishedAt.value >= rows[j].row.publishedAt.value)
  {
    forall j | 0 <= j < |rows| ensures rows[j].row.startsAt <= now <==> Eligible(rows[j], FallbackTier, now) {}
    forall j | 0 <= j < |rows| ensures OpenAt(rows[j].row, now) <==> Eligible(rows[j], ScheduledTier, now) {}
  }

  /** What every display shows, in words: while playlists are open and none of them is urgent, the one that
      started last, and of those the one published last; when none is open, the one published last of all that
      have started; and nothing exactly if none has started. */
  lemma EffectiveIsTheLatest(s0: State, steps: seq<Step>, s: State, rows: seq<Entry>)
    requires Initial(s0) && Run(s0, steps, s) && Lists(rows, s.rows)
    ensures var r := ActivePlaylist(rows, s.now);
            if exists j :: 0 <= j < |rows| && OpenAt(rows[j].row, s.now) then
              && r.Some? && r.value < |rows| && OpenAt(rows[r.value].row, s.now)
              && ((forall j :: 0 <= j < |rows| && OpenAt(rows[j].row, s.now) ==> !rows[j].row.urgent) ==>
                    forall j :: 0 <= j < |rows| && OpenAt(rows[j].row, s.now) ==>
                      StartedLast(rows[r.value], rows[j]))
            else
              && (r.None? <==> forall j :: 0 <= j < |rows| ==> rows[j].row.startsAt > s.now)
              && (r.Some? ==> r.value < |rows| && rows[r.value].row.startsAt <= s.now)
              && (r.Some? ==>
                    forall j :: 0 <= j < |rows| && rows[j].row.startsAt <= s.now ==>
                      && rows[r.value].row.publishedAt.Some? && rows[j].row.publishedAt.Some?
                      && rows[r.value].row.publishedAt.value >= rows[j].row.publishedAt.value)
  {
    ReachableIsPublishedBy(s0, steps, s, rows);
    if exists j :: 0 <= j < |rows| && OpenAt(rows[j].row, s.now) {
      OpenWins(rows, s.now);
    } else {
      FallbackWins(rows, s.now);
    }
  }

  /** While playlist `i` is the effective one, sync fails for unavailable media exactly if `i` shows archived
      media; that happens only on the fallback, when `i` has ended. */
  lemma SyncFailsExactlyForArchivedFallback(s0: State, steps: seq<Step>, s: State, rows: seq<Entry>, i: nat)
    requires Initial(s0) && Run(s0, steps, s) && Lists(rows, s.rows)
    requires ActivePlaylist(rows, s.now) == Some(i)
    ensures i < |rows| && rows[i].id in s.items && ContentKnown(s.media, s.items[rows[i].id])
    ensures SyncFails(s, rows[i].id) <==> ShowsArchived(s, rows[i].id)
    ensures SyncFails(s, rows[i].id) ==> First(rows, ScheduledTier, s.now).None? && rows[i].row.endsAt < s.now
  {
    SyncFailsForArchivedMedia(s0, steps, s, rows[i].id);
  }
}
