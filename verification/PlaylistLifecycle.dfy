/** Playlists from draft to replacement: the version lock of the model class, publication with
    supersession, and what both guarantee over every run of the dashboard's transactions. */
module PlaylistLifecycle {
  import opened Options

  datatype Status = Draft | Published | Cancelled | Archived

  datatype Row = Row(
    name: string,
    version: nat,
    startsAt: int,
    endsAt: int,
    createdBy: nat,
    status: Status,
    publishedAt: Option<int>,
    urgent: bool,
    supersededBy: Option<nat>)

  type Rows = map<nat, Row>

  datatype MediaStatus = Quarantined | Processing | Ready | Rejected | Removed

  datatype Media = Media(status: MediaStatus, normalized: bool, durationMs: nat)

  datatype Limits = Limits(maxEntries: nat, maxDurationSeconds: nat)

  // ---- The version lock: every save of a row passes through it ----

  datatype Column = StatusColumn | PublishedAtColumn | UrgentColumn | SupersededByColumn

  predicate LockedFieldsKept(o: Row, r: Row) {
    && r.name == o.name && r.version == o.version && r.startsAt == o.startsAt && r.endsAt == o.endsAt
    && r.publishedAt == o.publishedAt && r.urgent == o.urgent && r.createdBy == o.createdBy
  }

  predicate IsCorrection(rows: Rows, o: Row, id: nat) {
    && id in rows && rows[id].status.Published? && rows[id].name == o.name && rows[id].version > o.version
    && rows[id].startsAt == o.startsAt && rows[id].endsAt == o.endsAt
  }

  predicate VersionLockAllows(rows: Rows, o: Row, r: Row) {
    if o.status.Cancelled? then
      LockedFieldsKept(o, r) && r.status == o.status && r.supersededBy == o.supersededBy
    else if !o.status.Published? then true
    else
      && LockedFieldsKept(o, r)
      && if r.status.Published? then r.supersededBy == o.supersededBy
         else r.status.Cancelled? && r.supersededBy.Some? && IsCorrection(rows, o, r.supersededBy.value)
  }

  /** `columns` is the update_fields argument, None when the whole row is written. */
  predicate SaveAllows(rows: Rows, id: nat, r: Row, columns: Option<set<Column>>) {
    id in rows ==>
      && VersionLockAllows(rows, rows[id], r)
      && !rows[id].status.Cancelled?
      && !(rows[id].status.Published? && r.status.Published?)
      && (rows[id].status.Published? && r.status.Cancelled? && columns.Some? ==>
            {StatusColumn, SupersededByColumn} <= columns.value)
  }

  function Written(o: Row, r: Row, columns: Option<set<Column>>): Row {
    if columns.None? then r
    else
      o.(status := if StatusColumn in columns.value then r.status else o.status,
         publishedAt := if PublishedAtColumn in columns.value then r.publishedAt else o.publishedAt,
         urgent := if UrgentColumn in columns.value then r.urgent else o.urgent,
         supersededBy := if SupersededByColumn in columns.value then r.supersededBy else o.supersededBy)
  }

  /** All a save can ever do to a published row is cancel it in favour of a published newer version
      of the same name and window; to a cancelled row it can do nothing. */
  lemma SaveOnlyCorrects(rows: Rows, id: nat, r: Row, columns: Option<set<Column>>)
    requires id in rows && SaveAllows(rows, id, r, columns)
    ensures !rows[id].status.Cancelled?
    ensures rows[id].status.Published? ==>
              var w := Written(rows[id], r, columns);
              && w == rows[id].(status := Cancelled, supersededBy := r.supersededBy)
              && w.supersededBy.Some? && IsCorrection(rows, rows[id], w.supersededBy.value)
  {
    if rows[id].status.Published? && columns.Some? {
      assert StatusColumn in columns.value && SupersededByColumn in columns.value;
    }
  }

  /** Exactly that much: a draft may be saved in any way, a cancelled row in none, and a published one exactly
      as cancelled for a newer published version, with both columns written. */
  lemma SaveIsAllowedExactly(rows: Rows, id: nat, r: Row, columns: Option<set<Column>>)
    requires id in rows
    ensures rows[id].status.Draft? || rows[id].status.Archived? ==> SaveAllows(rows, id, r, columns)
    ensures rows[id].status.Cancelled? ==> !SaveAllows(rows, id, r, columns)
    ensures rows[id].status.Published? ==>
              var o := rows[id];
              SaveAllows(rows, id, r, columns) <==>
                && r == Row(o.name, o.version, o.startsAt, o.endsAt, o.createdBy, Cancelled, o.publishedAt, o.urgent,
                            r.supersededBy)
                && r.supersededBy.Some? && r.supersededBy.value in rows
                && (var n := rows[r.supersededBy.value];
                    && n.status.Published? && n.name == o.name && n.version > o.version
                    && n.startsAt == o.startsAt && n.endsAt == o.endsAt)
                && (columns.Some? ==> StatusColumn in columns.value && SupersededByColumn in columns.value)
  {
    if columns.Some? && StatusColumn in columns.value && SupersededByColumn in columns.value {
      assert {StatusColumn, SupersededByColumn} <= columns.value;
    }
  }

  // ---- Publication ----

  predicate Overlaps(a: Row, b: Row) {
    a.startsAt < b.endsAt && a.endsAt > b.startsAt
  }

  predicate SameSlot(a: Row, b: Row) {
    a.name == b.name && a.startsAt == b.startsAt && a.endsAt == b.endsAt
  }

  /** Row `i` is an older version that publishing `id` replaces. */
  predicate IsSuperseded(rows: Rows, id: nat, urgent: bool, i: nat)
    requires id in rows
  {
    && i in rows && i != id && rows[i].status.Published? && Overlaps(rows[i], rows[id])
    && SameSlot(rows[i], rows[id]) && rows[i].version < rows[id].version && rows[i].urgent == urgent
  }

  predicate UrgentClash(rows: Rows, id: nat)
    requires id in rows
  {
    exists i :: i in rows && i != id && rows[i].status.Published? && Overlaps(rows[i], rows[id])
                && rows[i].urgent && !IsSuperseded(rows, id, true, i)
  }

  function TotalDuration(content: seq<Media>): nat {
    if content == [] then 0 else TotalDuration(content[..|content| - 1]) + content[|content| - 1].durationMs
  }

  predicate ContentReady(limits: Limits, content: seq<Media>, imagesVerified: bool) {
    && 0 < |content| <= limits.maxEntries
    && (forall k :: 0 <= k < |content| ==> content[k].status.Ready?)
    && imagesVerified
    && TotalDuration(content) <= limits.maxDurationSeconds * 1000
  }

  /** The duration of a playlist is the sum over its parts. */
  lemma {:induction false} DurationAdds(a: seq<Media>, b: seq<Media>)
    ensures TotalDuration(a + b) == TotalDuration(a) + TotalDuration(b)
    ensures forall m: Media :: TotalDuration([m]) == m.durationMs
  {
    if b == [] {
      assert a + b == a;
    } else {
      var last := |b| - 1;
      assert (a + b)[..|a + b| - 1] == a + b[..last];
      DurationAdds(a, b[..last]);
    }
    forall m: Media ensures TotalDuration([m]) == m.durationMs {
      assert [m][..0] == [];
    }
  }

  lemma TimesOneMore(n: nat, x: nat)
    ensures (n + 1) * x == n * x + x
  {}

  lemma {:induction false} DurationBounds(content: seq<Media>, low: nat, high: nat)
    requires forall k :: 0 <= k < |content| ==> low <= content[k].durationMs <= high
    ensures |content| * low <= TotalDuration(content) <= |content| * high
  {
    if content != [] {
      var n := |content| - 1;
      DurationBounds(content[..n], low, high);
      TimesOneMore(n, low);
      TimesOneMore(n, high);
    }
  }

  /** What the limits admit: validated content whose entries all last at most `high` is ready when the number of
      its entries is allowed and so many of that length fit the duration limit; content is never ready when so
      many of its shortest entry's length do not fit, nor when it is empty, too long, or not validated. */
  lemma ContentLimits(limits: Limits, content: seq<Media>, imagesVerified: bool, low: nat, high: nat)
    requires forall k :: 0 <= k < |content| ==> low <= content[k].durationMs <= high
    ensures && 1 <= |content| <= limits.maxEntries && imagesVerified
            && (forall k :: 0 <= k < |content| ==> content[k].status.Ready?)
            && |content| * high <= 1000 * limits.maxDurationSeconds
            ==> ContentReady(limits, content, imagesVerified)
    ensures ContentReady(limits, content, imagesVerified) ==>
              && 1 <= |content| <= limits.maxEntries && imagesVerified
              && (forall k :: 0 <= k < |content| ==> content[k].status.Ready?)
              && |content| * low <= 1000 * limits.maxDurationSeconds
  {
    DurationBounds(content, low, high);
  }

  predicate Publishable(rows: Rows, id: nat, urgent: bool, now: int) {
    && id in rows && rows[id].status.Draft?
    && (urgent ==> rows[id].startsAt <= now < rows[id].endsAt && !UrgentClash(rows, id))
  }

  function PublishedRow(r: Row, urgent: bool, now: int): Row {
    r.(status := Published, publishedAt := Some(now), urgent := urgent)
  }

  function CancelledRow(r: Row, replacement: nat): Row {
    r.(status := Cancelled, supersededBy := Some(replacement))
  }

  function PublishedRows(rows: Rows, id: nat, urgent: bool, now: int): Rows
    requires id in rows
  {
    map i | i in rows ::
      if i == id then PublishedRow(rows[i], urgent, now)
      else if IsSuperseded(rows, id, urgent, i) then CancelledRow(rows[i], id)
      else rows[i]
  }

  /** The rows a draft may be published over: an urgent one only while its window is open, and only if every
      published urgent playlist whose window meets its own is an older version of the same name and window. */
  lemma PublishableExactly(rows: Rows, id: nat, urgent: bool, now: int)
    requires forall i :: i in rows ==> rows[i].startsAt < rows[i].endsAt
    ensures Publishable(rows, id, urgent, now) <==>
              && id in rows && rows[id].status.Draft?
              && (urgent ==>
                    && rows[id].startsAt <= now < rows[id].endsAt
                    && forall i :: i in rows && i != id && rows[i].status.Published? && rows[i].urgent ==>
                         || rows[i].endsAt <= rows[id].startsAt || rows[id].endsAt <= rows[i].startsAt
                         || (rows[i].name == rows[id].name && rows[i].startsAt == rows[id].startsAt
                             && rows[i].endsAt == rows[id].endsAt && rows[i].version < rows[id].version))
  {
    if id in rows {
      forall i | i in rows && i != id && rows[i].status.Published? && rows[i].urgent
        ensures (Overlaps(rows[i], rows[id]) && !IsSuperseded(rows, id, true, i)) <==>
                  !(|| rows[i].endsAt <= rows[id].startsAt || rows[id].endsAt <= rows[i].startsAt
                    || (rows[i].name == rows[id].name && rows[i].startsAt == rows[id].startsAt
                        && rows[i].endsAt == rows[id].endsAt && rows[i].version < rows[id].version))
      {}
    }
  }

  /** What a publication changes: the draft is published now, the published older versions of the same name,
      window and urgency are cancelled in its favour, and nothing else about any row changes. */
  lemma PublicationChangesExactly(rows: Rows, id: nat, urgent: bool, now: int)
    requires id in rows && rows[id].startsAt < rows[id].endsAt
    ensures var rows', r := PublishedRows(rows, id, urgent, now), rows[id];
            && rows'.Keys == rows.Keys
            && rows'[id] == Row(r.name, r.version, r.startsAt, r.endsAt, r.createdBy, Published, Some(now), urgent,
                                r.supersededBy)
            && forall i :: i in rows && i != id ==>
                 var o := rows[i];
                 if o.status.Published? && o.name == r.name && o.startsAt == r.startsAt && o.endsAt == r.endsAt
                    && o.urgent == urgent && o.version < r.version
                 then rows'[i] == Row(o.name, o.version, o.startsAt, o.endsAt, o.createdBy, Cancelled, o.publishedAt,
                                      o.urgent, Some(id))
                 else rows'[i] == o
  {}

  /** `done` are the rows already cancelled in favour of `id`. */
  function WithCancelled(rows: Rows, done: set<nat>, id: nat): Rows {
    map i | i in rows :: if i in done then CancelledRow(rows[i], id) else rows[i]
  }

  predicate Correctable(rows: Rows, id: nat, i: nat) {
    i in rows && i != id && rows[i].status.Published? && IsCorrection(rows, rows[i], id)
  }

  lemma CorrectionIsAllowed(rows: Rows, id: nat, i: nat)
    requires Correctable(rows, id, i)
    ensures var columns := Some({StatusColumn, SupersededByColumn});
            && SaveAllows(rows, i, CancelledRow(rows[i], id), columns)
            && Written(rows[i], CancelledRow(rows[i], id), columns) == CancelledRow(rows[i], id)
  {}

  lemma CancelOneMore(rows: Rows, done: set<nat>, id: nat, i: nat)
    requires Correctable(rows, id, i) && i !in done && id !in done
    ensures Correctable(WithCancelled(rows, done, id), id, i)
    ensures var rows' := WithCancelled(rows, done, id);
            rows'[i := CancelledRow(rows'[i], id)] == WithCancelled(rows, done + {i}, id)
  {}

  class PlaylistTable {
    var rows: Rows

    constructor ()
      ensures rows == map[]
    {
      rows := map[];
    }

    method Save(id: nat, r: Row, columns: Option<set<Column>>) returns (saved: bool)
      modifies this
      ensures saved == old(SaveAllows(rows, id, r, columns))
      ensures !saved ==> rows == old(rows)
      ensures saved ==> rows == old(rows)[id := if id in old(rows) then Written(old(rows)[id], r, columns) else r]
    {
      if id in rows {
        var original := rows[id];
        if !VersionLockAllows(rows, original, r) { return false; }
        if original.status.Cancelled? { return false; }
        if original.status.Published? && r.status.Published? { return false; }
        if original.status.Published? && r.status.Cancelled? && columns.Some?
           && !({StatusColumn, SupersededByColumn} <= columns.value)
        {
          return false;
        }
        rows := rows[id := Written(original, r, columns)];
      } else {
        rows := rows[id := r];
      }
      saved := true;
    }

    /** The guards alone decide: none of the saves inside is ever refused. */
    method Publish(id: nat, limits: Limits, content: seq<Media>, imagesVerified: bool, urgent: bool, now: int)
      returns (published: bool)
      modifies this
      ensures published == old(Publishable(rows, id, urgent, now) && ContentReady(limits, content, imagesVerified))
      ensures rows == if published then old(PublishedRows(rows, id, urgent, now)) else old(rows)
    {
      if id !in rows || rows[id].status != Draft { return false; }
      if !ContentReady(limits, content, imagesVerified) { return false; }
      var locked := rows[id];
      if urgent && !(locked.startsAt <= now < locked.endsAt) { return false; }
      var superseded := set i | i in rows && IsSuperseded(rows, id, urgent, i);
      if urgent && UrgentClash(rows, id) { return false; }
      ghost var before := rows;
      published := Save(id, PublishedRow(locked, urgent, now), Some({StatusColumn, PublishedAtColumn, UrgentColumn}));
      CancelAll(id, superseded);
      assert rows == PublishedRows(before, id, urgent, now);
    }

    method CancelAll(id: nat, superseded: set<nat>)
      requires forall i :: i in superseded ==> Correctable(rows, id, i)
      modifies this
      ensures rows == WithCancelled(old(rows), superseded, id)
    {
      ghost var before := rows;
      var todo := superseded;
      assert rows == WithCancelled(before, {}, id);
      while todo != {}
        invariant todo <= superseded && rows == WithCancelled(before, superseded - todo, id)
        decreases |todo|
      {
        var previous :| previous in todo;
        CancelOneMore(before, superseded - todo, id, previous);
        CorrectionIsAllowed(rows, id, previous);
        var saved := Save(previous, CancelledRow(rows[previous], id), Some({StatusColumn, SupersededByColumn}));
        assert saved;
        assert superseded - (todo - {previous}) == superseded - todo + {previous};
        todo := todo - {previous};
      }
      assert superseded - todo == superseded;
    }
  }

  predicate IsLiveIn(rows: Rows, i: nat, slot: Row, urgent: bool) {
    i in rows && rows[i].status.Published? && rows[i].urgent == urgent && SameSlot(rows[i], slot)
  }

  /** Which versions of a slot publication leaves: exactly the new one, if and only if no newer version
      was already published. Publishing an older draft late leaves two versions published. */
  lemma OnePublishedVersion(rows: Rows, id: nat, urgent: bool, now: int)
    requires UniqueVersions(rows) && WindowsSound(rows) && Publishable(rows, id, urgent, now)
    ensures var rows' := PublishedRows(rows, id, urgent, now);
            (forall i :: IsLiveIn(rows', i, rows'[id], urgent) ==> i == id)
            <==>
            !exists j :: IsLiveIn(rows, j, rows[id], urgent) && rows[j].version > rows[id].version
  {
    var rows' := PublishedRows(rows, id, urgent, now);
    if j :| IsLiveIn(rows, j, rows[id], urgent) && rows[j].version > rows[id].version {
      assert IsLiveIn(rows', j, rows'[id], urgent);
    }
    forall i | IsLiveIn(rows', i, rows'[id], urgent) && i != id
      ensures IsLiveIn(rows, i, rows[id], urgent) && rows[i].version > rows[id].version
    {}
  }

  // ---- The dashboard as a state machine ----

  /** `items[p]` is the media of playlist `p` in order. */
  datatype State = State(
    now: int,
    limits: Limits,
    rows: Rows,
    items: map<nat, seq<nat>>,
    media: map<nat, Media>)

  datatype Step =
    | Tick(time: nat)
    | SetLimits(limits: Limits)
    | Upload(m: nat, durationMs: nat)
    | Process(m: nat, to: MediaStatus)
    | Archive(m: nat)
    | Create(id: nat, name: string, version: nat, startsAt: int, endsAt: int, author: nat, content: seq<nat>)
    | Edit(id: nat, name: string, version: nat, startsAt: int, endsAt: int)
    | Delete(id: nat)
    | AddItem(id: nat, m: nat)
    | RemoveItem(id: nat, k: nat)
    | Reorder(id: nat, content: seq<nat>)
    | Clone(source: nat, id: nat, latest: nat, author: nat)
    | Publish(id: nat, urgent: bool, imagesVerified: bool)

  predicate VersionFree(rows: Rows, name: string, version: nat, except: nat) {
    forall i :: i in rows && i != except ==> rows[i].name != name || rows[i].version != version
  }

  predicate IsLatest(rows: Rows, name: string, latest: nat) {
    && (exists i :: i in rows && rows[i].name == name && rows[i].version == latest)
    && (forall i :: i in rows && rows[i].name == name ==> rows[i].version <= latest)
  }

  predicate IsDraft(s: State, id: nat) {
    id in s.rows && id in s.items && s.rows[id].status.Draft?
  }

  predicate HasReady(media: map<nat, Media>, content: seq<nat>) {
    forall k :: 0 <= k < |content| ==> content[k] in media && media[content[k]].status.Ready?
  }

  /** Some draft or published playlist that has not ended shows the media. */
  predicate IsReferenced(s: State, m: nat) {
    exists p :: p in s.rows && p in s.items && (s.rows[p].status.Draft? || s.rows[p].status.Published?)
                && s.rows[p].endsAt >= s.now && m in s.items[p]
  }

  predicate ContentKnown(media: map<nat, Media>, content: seq<nat>) {
    forall k :: 0 <= k < |content| ==> content[k] in media
  }

  function Content(media: map<nat, Media>, content: seq<nat>): (r: seq<Media>)
    requires ContentKnown(media, content)
  {
    seq(|content|, k requires 0 <= k < |content| => media[content[k]])
  }

  predicate MayProcess(from: MediaStatus, to: MediaStatus) {
    || (from.Quarantined? && to.Processing?)
    || (from.Processing? && !to.Removed?)
  }

  predicate Enabled(s: State, step: Step) {
    match step
    case Tick(_) => true
    case SetLimits(_) => true
    case Upload(m, _) => m !in s.media
    case Process(m, to) => m in s.media && MayProcess(s.media[m].status, to)
    case Archive(m) => m in s.media && !IsReferenced(s, m)
    case Create(id, name, version, startsAt, endsAt, _, content) =>
      id !in s.rows && VersionFree(s.rows, name, version, id) && startsAt < endsAt && HasReady(s.media, content)
    case Edit(id, name, version, startsAt, endsAt) =>
      IsDraft(s, id) && VersionFree(s.rows, name, version, id) && startsAt < endsAt
    case Delete(id) => IsDraft(s, id) && s.items[id] == []
    case AddItem(id, m) => IsDraft(s, id) && m in s.media && s.media[m].status.Ready?
    case RemoveItem(id, k) => IsDraft(s, id) && k < |s.items[id]|
    case Reorder(id, content) => IsDraft(s, id) && multiset(content) == multiset(s.items[id])
    case Clone(source, id, latest, _) =>
      source in s.rows && source in s.items && id !in s.rows && IsLatest(s.rows, s.rows[source].name, latest)
    case Publish(id, urgent, imagesVerified) =>
      && Publishable(s.rows, id, urgent, s.now) && id in s.items && ContentKnown(s.media, s.items[id])
      && ContentReady(s.limits, Content(s.media, s.items[id]), imagesVerified)
  }

  function DraftRow(name: string, version: nat, startsAt: int, endsAt: int, author: nat): Row {
    Row(name, version, startsAt, endsAt, author, Draft, None, false, None)
  }

  function ProcessedMedia(o: Media, to: MediaStatus): Media {
    o.(status := to, normalized := o.normalized || to.Ready?)
  }

  function Next(s: State, step: Step): State
    requires Enabled(s, step)
  {
    match step
    case Tick(d) => s.(now := s.now + d)
    case SetLimits(limits) => s.(limits := limits)
    case Upload(m, durationMs) => s.(media := s.media[m := Media(Quarantined, false, durationMs)])
    case Process(m, to) => s.(media := s.media[m := ProcessedMedia(s.media[m], to)])
    case Archive(m) => s.(media := s.media[m := s.media[m].(status := Removed)])
    case Create(id, name, version, startsAt, endsAt, author, content) =>
      s.(rows := s.rows[id := DraftRow(name, version, startsAt, endsAt, author)], items := s.items[id := content])
    case Edit(id, name, version, startsAt, endsAt) =>
      s.(rows := s.rows[id := s.rows[id].(name := name, version := version, startsAt := startsAt, endsAt := endsAt)])
    case Delete(id) => s.(rows := s.rows - {id}, items := s.items - {id})
    case AddItem(id, m) => s.(items := s.items[id := s.items[id] + [m]])
    case RemoveItem(id, k) => s.(items := s.items[id := s.items[id][..k] + s.items[id][k + 1..]])
    case Reorder(id, content) => s.(items := s.items[id := content])
    case Clone(source, id, latest, author) =>
      var o := s.rows[source];
      s.(rows := s.rows[id := DraftRow(o.name, latest + 1, o.startsAt, o.endsAt, author)],
         items := s.items[id := s.items[source]])
    case Publish(id, urgent, _) => s.(rows := PublishedRows(s.rows, id, urgent, s.now))
  }

  predicate IsDrafting(step: Step) {
    step.Create? || step.Edit? || step.AddItem? || step.RemoveItem? || step.Reorder?
  }

  /** What editing does to a draft: its row and content are as requested, a removal closes the gap, and no other
      playlist changes. */
  lemma DraftingExactly(s: State, step: Step)
    requires Enabled(s, step) && IsDrafting(step)
    ensures var s' := Next(s, step);
            && s' == s.(rows := s'.rows, items := s'.items)
            && (forall p :: p != step.id ==> (p in s'.rows <==> p in s.rows) && (p in s'.items <==> p in s.items))
            && (forall p :: p in s.rows && p != step.id ==> s'.rows[p] == s.rows[p])
            && (forall p :: p in s.items && p != step.id ==> s'.items[p] == s.items[p])
            && step.id in s'.rows && step.id in s'.items
    ensures var r, content := Next(s, step).rows[step.id], Next(s, step).items[step.id];
            match step
            case Create(_, name, version, startsAt, endsAt, author, requested) =>
              r == Row(name, version, startsAt, endsAt, author, Draft, None, false, None) && content == requested
            case Edit(id, name, version, startsAt, endsAt) =>
              && content == s.items[id]
              && r == Row(name, version, startsAt, endsAt, s.rows[id].createdBy, Draft, s.rows[id].publishedAt,
                          s.rows[id].urgent, s.rows[id].supersededBy)
            case AddItem(id, m) => r == s.rows[id] && |content| == |s.items[id]| + 1 && s.items[id] < content
                                   && content[|s.items[id]|] == m
            case RemoveItem(id, k) =>
              && r == s.rows[id] && |content| == |s.items[id]| - 1
              && forall j :: 0 <= j < |content| ==> content[j] == s.items[id][if j < k then j else j + 1]
            case Reorder(id, requested) => r == s.rows[id] && content == requested
  {}

  /** A new version is a draft with the window and the content of its source, newer than every version of that
      name, and changes nothing else. */
  lemma CloneIsNewest(s: State, source: nat, id: nat, latest: nat, author: nat)
    requires Enabled(s, Clone(source, id, latest, author))
    ensures var s', o := Next(s, Clone(source, id, latest, author)), s.rows[source];
            && s'.rows.Keys == s.rows.Keys + {id} && s'.items[id] == s.items[source]
            && s'.rows[id] == Row(o.name, s'.rows[id].version, o.startsAt, o.endsAt, author, Draft, None, false, None)
            && (forall i :: i in s.rows && s.rows[i].name == o.name ==> s.rows[i].version < s'.rows[id].version)
            && (exists i :: i in s.rows && s.rows[i].name == o.name && s'.rows[id].version == s.rows[i].version + 1)
            && (forall i :: i in s.rows ==> s'.rows[i] == s.rows[i])
            && (forall i :: i in s.items && i != id ==> i in s'.items && s'.items[i] == s.items[i])
  {
    var i :| i in s.rows && s.rows[i].name == s.rows[source].name && s.rows[i].version == latest;
  }

  ghost predicate Initial(s: State) {
    s.rows == map[] && s.items == map[] && s.media == map[]
  }

  ghost predicate Run(s: State, steps: seq<Step>, s': State)
    decreases |steps|
  {
    if steps == [] then s == s'
    else Enabled(s, steps[0]) && Run(Next(s, steps[0]), steps[1..], s')
  }

  // ---- The invariant ----

  ghost predicate WindowsSound(rows: Rows) {
    forall i :: i in rows ==> rows[i].startsAt < rows[i].endsAt
  }

  ghost predicate UniqueVersions(rows: Rows) {
    forall i, j :: i in rows && j in rows && i != j ==>
      rows[i].name != rows[j].name || rows[i].version != rows[j].version
  }

  /** The replacement of `i` is newer, was published itself, and keeps name, window and urgency. */
  ghost predicate LinkSound(rows: Rows, i: nat, j: nat)
    requires i in rows
  {
    && j in rows && (rows[j].status.Published? || rows[j].status.Cancelled?)
    && SameSlot(rows[i], rows[j]) && rows[i].urgent == rows[j].urgent && rows[i].version < rows[j].version
  }

  /** Published in the past, and an urgent replacement inside its own window. */
  predicate PublicationSound(r: Row, now: int) {
    && r.publishedAt.Some? && r.publishedAt.value <= now
    && (r.urgent ==> r.startsAt <= r.publishedAt.value < r.endsAt)
  }

  ghost predicate RowSound(rows: Rows, i: nat, now: int)
    requires i in rows
  {
    var r := rows[i];
    match r.status
    case Draft => r.publishedAt.None? && !r.urgent && r.supersededBy.None?
    case Published => PublicationSound(r, now) && r.supersededBy.None?
    case Cancelled =>
      && PublicationSound(r, now)
      && r.supersededBy.Some? && LinkSound(rows, i, r.supersededBy.value)
    case Archived => false
  }

  ghost predicate RowsSound(rows: Rows, now: int) {
    forall i :: i in rows ==> RowSound(rows, i, now)
  }

  predicate LiveUrgent(r: Row) {
    r.status.Published? && r.urgent
  }

  ghost predicate UrgentDisjoint(rows: Rows) {
    forall i, j :: i in rows && j in rows && i != j && LiveUrgent(rows[i]) && LiveUrgent(rows[j]) ==>
      !Overlaps(rows[i], rows[j])
  }

  /** The part of the invariant that is about rows alone. */
  ghost predicate TableSound(rows: Rows, now: int) {
    WindowsSound(rows) && UniqueVersions(rows) && RowsSound(rows, now) && UrgentDisjoint(rows)
  }

  ghost predicate ItemsSound(rows: Rows, items: map<nat, seq<nat>>, media: map<nat, Media>) {
    && items.Keys == rows.Keys
    && (forall m :: m in media && media[m].status.Ready? ==> media[m].normalized)
    && (forall p :: p in items ==> ContentKnown(media, items[p]))
  }

  /** A published playlist whose window has not ended shows only validated media. */
  ghost predicate Deliverable(rows: Rows, items: map<nat, seq<nat>>, media: map<nat, Media>, now: int) {
    forall p :: p in rows && p in items && rows[p].status.Published? && rows[p].endsAt >= now ==>
      HasReady(media, items[p])
  }

  predicate ReadyOrRemoved(media: map<nat, Media>, content: seq<nat>) {
    forall k :: 0 <= k < |content| ==>
      content[k] in media && (media[content[k]].status.Ready? || media[content[k]].status.Removed?)
  }

  /** Published content was validated; afterwards it can only be archived. */
  ghost predicate OnlyArchived(rows: Rows, items: map<nat, seq<nat>>, media: map<nat, Media>) {
    forall p :: p in rows && p in items && rows[p].status.Published? ==> ReadyOrRemoved(media, items[p])
  }

  ghost predicate Inv(s: State) {
    && TableSound(s.rows, s.now)
    && OnlyArchived(s.rows, s.items, s.media)
    && ItemsSound(s.rows, s.items, s.media) && Deliverable(s.rows, s.items, s.media, s.now)
  }

  /** What never changes once a playlist is published: its identity, window, publication and content. */
  ghost predicate HistoryKept(s: State, s': State) {
    forall i :: i in s.rows && i in s.items && !s.rows[i].status.Draft? ==>
      && i in s'.rows && i in s'.items && s'.items[i] == s.items[i]
      && (s'.rows[i] == s.rows[i]
          || (s.rows[i].status.Published?
              && s'.rows[i] == s.rows[i].(status := Cancelled, supersededBy := s'.rows[i].supersededBy)))
  }

  lemma PutDraftKeeps(rows: Rows, id: nat, r: Row, now: int)
    requires TableSound(rows, now)
    requires r.status.Draft? && r.publishedAt.None? && !r.urgent && r.supersededBy.None? && r.startsAt < r.endsAt
    requires VersionFree(rows, r.name, r.version, id) && (id in rows ==> rows[id].status.Draft?)
    ensures TableSound(rows[id := r], now)
  {
    var rows' := rows[id := r];
    forall i | i in rows' ensures RowSound(rows', i, now) {
      if i != id { assert RowSound(rows, i, now); }
    }
  }

  lemma DropDraftKeeps(rows: Rows, id: nat, now: int)
    requires TableSound(rows, now) && id in rows && rows[id].status.Draft?
    ensures TableSound(rows - {id}, now)
  {
    var rows' := rows - {id};
    forall i | i in rows' ensures RowSound(rows', i, now) {
      assert RowSound(rows, i, now);
    }
  }

  lemma LaterKeeps(rows: Rows, now: int, now': int)
    requires RowsSound(rows, now) && now <= now'
    ensures RowsSound(rows, now')
  {
    forall i | i in rows ensures RowSound(rows, i, now') {
      assert RowSound(rows, i, now);
    }
  }

  lemma PublishedRowIsSound(rows: Rows, id: nat, urgent: bool, now: int, i: nat)
    requires RowsSound(rows, now) && Publishable(rows, id, urgent, now) && i in rows
    ensures RowSound(PublishedRows(rows, id, urgent, now), i, now)
  {
    assert RowSound(rows, i, now);
    assert RowSound(rows, id, now);
  }

  lemma PublishKeepsDisjoint(rows: Rows, id: nat, urgent: bool, now: int)
    requires UrgentDisjoint(rows) && Publishable(rows, id, urgent, now)
    ensures UrgentDisjoint(PublishedRows(rows, id, urgent, now))
  {
    var rows' := PublishedRows(rows, id, urgent, now);
    forall i, j | i in rows' && j in rows' && i != j && LiveUrgent(rows'[i]) && LiveUrgent(rows'[j])
      ensures !Overlaps(rows'[i], rows'[j])
    {
      if i == id {
        assert !IsSuperseded(rows, id, urgent, j);
      } else if j == id {
        assert !IsSuperseded(rows, id, urgent, i);
      }
    }
  }

  lemma PublishKeeps(rows: Rows, id: nat, urgent: bool, now: int)
    requires TableSound(rows, now) && Publishable(rows, id, urgent, now)
    ensures TableSound(PublishedRows(rows, id, urgent, now), now)
  {
    var rows' := PublishedRows(rows, id, urgent, now);
    forall i | i in rows' ensures RowSound(rows', i, now) {
      PublishedRowIsSound(rows, id, urgent, now, i);
    }
    PublishKeepsDisjoint(rows, id, urgent, now);
  }

  lemma EditKeepsTable(s: State, step: Step)
    requires TableSound(s.rows, s.now) && Enabled(s, step) && step.Edit?
    ensures TableSound(Next(s, step).rows, s.now)
  {
    assert RowSound(s.rows, step.id, s.now);
    PutDraftKeeps(s.rows, step.id, Next(s, step).rows[step.id], s.now);
  }

  lemma CloneKeepsTable(s: State, step: Step)
    requires TableSound(s.rows, s.now) && Enabled(s, step) && step.Clone?
    ensures TableSound(Next(s, step).rows, s.now)
  {
    var o := s.rows[step.source];
    PutDraftKeeps(s.rows, step.id, DraftRow(o.name, step.latest + 1, o.startsAt, o.endsAt, step.author), s.now);
  }

  lemma StepKeepsTable(s: State, step: Step)
    requires TableSound(s.rows, s.now) && Enabled(s, step)
    ensures TableSound(Next(s, step).rows, Next(s, step).now)
  {
    match step
    case Tick(d) => LaterKeeps(s.rows, s.now, s.now + d);
    case Create(id, name, version, startsAt, endsAt, author, _) =>
      PutDraftKeeps(s.rows, id, DraftRow(name, version, startsAt, endsAt, author), s.now);
    case Clone(_, _, _, _) => CloneKeepsTable(s, step);
    case Edit(_, _, _, _, _) => EditKeepsTable(s, step);
    case Delete(id) => DropDraftKeeps(s.rows, id, s.now);
    case Publish(id, urgent, _) => PublishKeeps(s.rows, id, urgent, s.now);
    case _ =>
  }

  /** The content a step leaves in the playlist it works on. */
  lemma NewContentIsKnown(s: State, step: Step)
    requires ItemsSound(s.rows, s.items, s.media) && Enabled(s, step)
    ensures step.Create? ==> ContentKnown(s.media, step.content)
    ensures step.AddItem? ==> ContentKnown(s.media, s.items[step.id] + [step.m])
    ensures step.RemoveItem? ==> ContentKnown(s.media, s.items[step.id][..step.k] + s.items[step.id][step.k + 1..])
    ensures step.Reorder? ==> ContentKnown(s.media, step.content)
    ensures step.Clone? ==> ContentKnown(s.media, s.items[step.source])
  {
    if step.AddItem? || step.RemoveItem? || step.Reorder? {
      assert ContentKnown(s.media, s.items[step.id]);
    }
    if step.Reorder? {
      SameElements(step.content, s.items[step.id]);
      forall k | 0 <= k < |step.content| ensures step.content[k] in s.media {
        assert step.content[k] in s.items[step.id];
      }
    }
  }

  lemma StepKeepsItems(s: State, step: Step)
    requires ItemsSound(s.rows, s.items, s.media) && Enabled(s, step)
    ensures var s' := Next(s, step); ItemsSound(s'.rows, s'.items, s'.media)
  {
    NewContentIsKnown(s, step);
    var s' := Next(s, step);
    forall p | p in s'.items ensures ContentKnown(s'.media, s'.items[p]) {
      if p in s.items { assert ContentKnown(s.media, s.items[p]); }
    }
  }

  lemma SameElements(a: seq<nat>, b: seq<nat>)
    requires multiset(a) == multiset(b)
    ensures forall m :: m in a <==> m in b
  {
    forall m ensures m in a <==> m in b {
      assert m in a <==> m in multiset(a);
    }
  }

  lemma PublishedContentIsReady(s: State, id: nat, urgent: bool, imagesVerified: bool)
    requires Enabled(s, Publish(id, urgent, imagesVerified))
    ensures HasReady(s.media, s.items[id])
  {
    forall k | 0 <= k < |s.items[id]| ensures s.media[s.items[id][k]].status.Ready? {
      assert Content(s.media, s.items[id])[k].status.Ready?;
    }
  }

  /** Media that a live playlist shows stays validated: only archiving takes the status away. */
  lemma StepKeepsReady(s: State, step: Step, p: nat)
    requires Enabled(s, step) && p in s.rows && p in s.items && s.rows[p].status.Published? && s.rows[p].endsAt >= s.now
    requires HasReady(s.media, s.items[p])
    ensures HasReady(Next(s, step).media, s.items[p])
  {}

  lemma StepKeepsDeliverable(s: State, step: Step)
    requires Deliverable(s.rows, s.items, s.media, s.now) && Enabled(s, step)
    ensures var s' := Next(s, step); Deliverable(s'.rows, s'.items, s'.media, s'.now)
  {
    var s' := Next(s, step);
    forall p | p in s'.rows && p in s'.items && s'.rows[p].status.Published? && s'.rows[p].endsAt >= s'.now
      ensures HasReady(s'.media, s'.items[p])
    {
      if step.Publish? && p == step.id {
        PublishedContentIsReady(s, step.id, step.urgent, step.imagesVerified);
      } else {
        StepKeepsReady(s, step, p);
      }
    }
  }

  lemma StepKeepsArchivable(s: State, step: Step, content: seq<nat>)
    requires Enabled(s, step) && ReadyOrRemoved(s.media, content)
    ensures ReadyOrRemoved(Next(s, step).media, content)
  {}

  lemma StepOnlyArchives(s: State, step: Step)
    requires OnlyArchived(s.rows, s.items, s.media) && Enabled(s, step)
    ensures var s' := Next(s, step); OnlyArchived(s'.rows, s'.items, s'.media)
  {
    var s' := Next(s, step);
    forall p | p in s'.rows && p in s'.items && s'.rows[p].status.Published?
      ensures ReadyOrRemoved(s'.media, s'.items[p])
    {
      if step.Publish? && p == step.id {
        PublishedContentIsReady(s, step.id, step.urgent, step.imagesVerified);
      } else {
        StepKeepsArchivable(s, step, s.items[p]);
      }
    }
  }

  lemma StepInv(s: State, step: Step)
    requires Inv(s) && Enabled(s, step)
    ensures Inv(Next(s, step))
  {
    StepKeepsTable(s, step);
    StepKeepsItems(s, step);
    StepKeepsDeliverable(s, step);
    StepOnlyArchives(s, step);
  }

  lemma StepHistory(s: State, step: Step)
    requires Enabled(s, step)
    ensures HistoryKept(s, Next(s, step))
  {}

  lemma {:induction false} RunInv(s: State, steps: seq<Step>, s': State)
    requires Inv(s) && Run(s, steps, s')
    ensures Inv(s')
    decreases |steps|
  {
    if steps != [] {
      StepInv(s, steps[0]);
      RunInv(Next(s, steps[0]), steps[1..], s');
    }
  }

  // ---- What every run guarantees ----

  /** From any state a published row keeps its identity, window, author, urgency, publication time and
      content for ever; only its status may become Cancelled, after which nothing about it changes. */
  lemma {:induction false} PublishedIsForever(s: State, steps: seq<Step>, s': State)
    requires Run(s, steps, s')
    ensures HistoryKept(s, s')
    decreases |steps|
  {
    if steps != [] {
      StepHistory(s, steps[0]);
      PublishedIsForever(Next(s, steps[0]), steps[1..], s');
    }
  }

  predicate InForce(r: Row, t: int) {
    LiveUrgent(r) && r.startsAt <= t < r.endsAt
  }

  /** At most one urgent replacement is in force at any moment. */
  lemma UrgentWindowsDisjoint(s0: State, steps: seq<Step>, s: State)
    requires Initial(s0) && Run(s0, steps, s)
    ensures forall i, j :: i in s.rows && j in s.rows && i != j && LiveUrgent(s.rows[i]) && LiveUrgent(s.rows[j]) ==>
              s.rows[i].endsAt <= s.rows[j].startsAt || s.rows[j].endsAt <= s.rows[i].startsAt
    ensures forall t, i, j :: i in s.rows && j in s.rows && InForce(s.rows[i], t) && InForce(s.rows[j], t) ==> i == j
  {
    RunInv(s0, steps, s);
  }

  /** Every version that was ever published has a publication time in the past, and an urgent one was
      published while its window was open. */
  lemma PublicationTimes(s0: State, steps: seq<Step>, s: State, i: nat)
    requires Initial(s0) && Run(s0, steps, s) && i in s.rows && !s.rows[i].status.Draft?
    ensures PublicationSound(s.rows[i], s.now)
  {
    RunInv(s0, steps, s);
    assert RowSound(s.rows, i, s.now);
  }

  /** Rows newer than `version`: the measure along a chain of replacements. */
  ghost function NewerThan(rows: Rows, version: nat): set<nat> {
    set i | i in rows && rows[i].version > version
  }

  /** The versions from `id` along superseded_by to the one still published. */
  ghost function Chain(rows: Rows, now: int, id: nat): (chain: seq<nat>)
    requires RowsSound(rows, now) && id in rows && !rows[id].status.Draft?
    ensures |chain| > 0 && chain[0] == id
    ensures forall k :: 0 <= k < |chain| ==>
              chain[k] in rows && SameSlot(rows[chain[k]], rows[id]) && rows[chain[k]].urgent == rows[id].urgent
    ensures forall k :: 0 <= k < |chain| - 1 ==>
              && rows[chain[k]].status.Cancelled? && rows[chain[k]].supersededBy == Some(chain[k + 1])
              && rows[chain[k]].version < rows[chain[k + 1]].version
    ensures rows[chain[|chain| - 1]].status.Published?
    decreases NewerThan(rows, rows[id].version)
  {
    assert RowSound(rows, id, now);
    if rows[id].status.Published? then [id]
    else
      var next := rows[id].supersededBy.value;
      assert next in NewerThan(rows, rows[id].version) && next !in NewerThan(rows, rows[next].version);
      [id] + Chain(rows, now, next)
  }

  /** Every version that was ever published leads, through strictly newer versions of the same name,
      window and urgency, to one that is published now. */
  lemma EveryVersionHasAHead(s0: State, steps: seq<Step>, s: State, id: nat)
    requires Initial(s0) && Run(s0, steps, s) && id in s.rows && !s.rows[id].status.Draft?
    ensures exists head :: head in s.rows && s.rows[head].status.Published? && SameSlot(s.rows[head], s.rows[id])
                           && s.rows[head].urgent == s.rows[id].urgent
                           && (head == id || s.rows[head].version > s.rows[id].version)
  {
    RunInv(s0, steps, s);
    var chain := Chain(s.rows, s.now, id);
    if |chain| > 1 {
      VersionsRise(s.rows, s.now, id, |chain| - 1);
    }
    var head := chain[|chain| - 1];
    assert head in s.rows;
  }

  lemma {:induction false} VersionsRise(rows: Rows, now: int, id: nat, k: nat)
    requires RowsSound(rows, now) && id in rows && !rows[id].status.Draft?
    requires 0 < k < |Chain(rows, now, id)|
    ensures rows[Chain(rows, now, id)[k]].version > rows[id].version
  {
    if k > 1 {
      VersionsRise(rows, now, id, k - 1);
    }
  }

  /** The error of sync for unavailable media. */
  predicate SyncFails(s: State, p: nat)
    requires p in s.items && ContentKnown(s.media, s.items[p])
  {
    exists k :: 0 <= k < |s.items[p]| && var m := s.media[s.items[p][k]]; !m.status.Ready? || !m.normalized
  }

  predicate ShowsArchived(s: State, p: nat)
    requires p in s.items && ContentKnown(s.media, s.items[p])
  {
    exists k :: 0 <= k < |s.items[p]| && s.media[s.items[p][k]].status.Removed?
  }

  /** In every reachable state a published playlist makes sync fail exactly if it shows archived media, and
      that takes a playlist that has ended. */
  lemma SyncFailsForArchivedMedia(s0: State, steps: seq<Step>, s: State, p: nat)
    requires Initial(s0) && Run(s0, steps, s) && p in s.rows && s.rows[p].status.Published?
    ensures p in s.items && ContentKnown(s.media, s.items[p])
    ensures SyncFails(s, p) <==> ShowsArchived(s, p)
    ensures ShowsArchived(s, p) ==> s.rows[p].endsAt < s.now
  {
    RunInv(s0, steps, s);
    assert p in s.items;
    ArchivedIff(s, p);
    if s.rows[p].endsAt >= s.now {
      assert HasReady(s.media, s.items[p]);
    }
  }

  lemma ArchivedIff(s: State, p: nat)
    requires p in s.items && ContentKnown(s.media, s.items[p]) && ReadyOrRemoved(s.media, s.items[p])
    requires forall m :: m in s.media && s.media[m].status.Ready? ==> s.media[m].normalized
    ensures SyncFails(s, p) <==> ShowsArchived(s, p)
  {
    var content := s.items[p];
    forall k | 0 <= k < |content|
      ensures (!s.media[content[k]].status.Ready? || !s.media[content[k]].normalized)
              <==> s.media[content[k]].status.Removed?
    {}
  }

  /** No playlist that is published and has not ended can make sync fail. */
  lemma PublishedIsDeliverable(s0: State, steps: seq<Step>, s: State, p: nat)
    requires Initial(s0) && Run(s0, steps, s)
    requires p in s.rows && s.rows[p].status.Published? && s.rows[p].endsAt >= s.now
    ensures p in s.items && ContentKnown(s.media, s.items[p]) && !SyncFails(s, p)
  {
    RunInv(s0, steps, s);
    assert p in s.items;
    assert ContentKnown(s.media, s.items[p]);
    assert HasReady(s.media, s.items[p]);
  }
}
