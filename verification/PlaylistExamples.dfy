/** Runs of the dashboard that reach what the guards do not exclude: sync failing on an ended fallback, and two
    published versions of one slot. */
module PlaylistExamples {
  import opened Options
  import opened PlaylistLifecycle
  import opened EffectivePlaylist

  const LIMITS := Limits(1, 1)

  const READY := Media(Ready, true, 5)

  const ARCHIVED := Media(Removed, true, 5)

  function Start(): State {
    State(0, LIMITS, map[], map[], map[])
  }

  function FirstVersion(): Row {
    DraftRow("a", 1, 0, 9, 2)
  }

  function OneDraft(): State {
    State(0, LIMITS, map[1 := FirstVersion()], map[1 := [7]], map[7 := READY])
  }

  lemma RunStep(s: State, step: Step, rest: seq<Step>, s': State)
    requires Enabled(s, step) && Run(Next(s, step), rest, s')
    ensures Run(s, [step] + rest, s')
  {
    assert ([step] + rest)[1..] == rest;
  }

  function OneMedia(): State {
    State(0, LIMITS, map[], map[], map[7 := READY])
  }

  lemma Validates(rest: seq<Step>, s': State)
    requires Run(OneMedia(), rest, s')
    ensures exists steps :: Run(Start(), steps, s')
  {
    var upload, claim, accept := Upload(7, 5), Process(7, Processing), Process(7, Ready);
    var s1 := Next(Start(), upload);
    var s2 := Next(s1, claim);
    assert Next(s2, accept) == OneMedia();
    RunStep(s2, accept, rest, s');
    RunStep(s1, claim, [accept] + rest, s');
    RunStep(Start(), upload, [claim] + ([accept] + rest), s');
  }

  /** Media is uploaded and validated, and a first draft is created with it. */
  lemma Drafts(rest: seq<Step>, s': State)
    requires Run(OneDraft(), rest, s')
    ensures exists steps :: Run(Start(), steps, s')
  {
    var create := Create(1, "a", 1, 0, 9, 2, [7]);
    assert Next(OneMedia(), create) == OneDraft();
    RunStep(OneMedia(), create, rest, s');
    Validates([create] + rest, s');
  }

  lemma OneItemIsReady(s: State, id: nat)
    requires id in s.items && s.items[id] == [7] && 7 in s.media && s.media[7] == READY && s.limits == LIMITS
    ensures ContentKnown(s.media, s.items[id]) && ContentReady(s.limits, Content(s.media, s.items[id]), true)
  {
    assert Content(s.media, s.items[id]) == [READY];
    assert TotalDuration([READY]) == 5;
  }

  // ---- Sync on an ended fallback ----

  ghost predicate FallbackFails(s0: State, steps: seq<Step>, s: State, rows: seq<Entry>) {
    && Initial(s0) && Run(s0, steps, s) && Lists(rows, s.rows)
    && ActivePlaylist(rows, s.now) == Some(0) && |rows| > 0 && rows[0].id in s.items
    && ContentKnown(s.media, s.items[rows[0].id]) && SyncFails(s, rows[0].id)
  }

  function OnePublished(now: int, m: Media): State {
    State(now, LIMITS, map[1 := PublishedRow(FirstVersion(), false, 0)], map[1 := [7]], map[7 := m])
  }

  lemma PublishesAndArchives()
    ensures exists rest :: Run(OneDraft(), rest, OnePublished(10, ARCHIVED))
  {
    var publish, end := Publish(1, false, true), OnePublished(10, ARCHIVED);
    OneItemIsReady(OneDraft(), 1);
    assert Next(OneDraft(), publish) == OnePublished(0, READY);
    assert Next(OnePublished(0, READY), Tick(10)) == OnePublished(10, READY);
    assert Next(OnePublished(10, READY), Archive(7)) == end;
    RunStep(OnePublished(10, READY), Archive(7), [], end);
    RunStep(OnePublished(0, READY), Tick(10), [Archive(7)], end);
    RunStep(OneDraft(), publish, [Tick(10)] + [Archive(7)], end);
  }

  /** The content of an ended playlist may be archived while it is still shown as the fallback. */
  lemma EndedFallbackCanFail()
    ensures exists s0: State, steps: seq<Step>, s: State, rows: seq<Entry> :: FallbackFails(s0, steps, s, rows)
  {
    PublishesAndArchives();
    var s := OnePublished(10, ARCHIVED);
    var rest :| Run(OneDraft(), rest, s);
    Drafts(rest, s);
    var steps :| Run(Start(), steps, s);
    var rows := [Entry(1, s.rows[1])];
    assert rows[0].id == 1 && Listed(rows, 1);
    assert SyncFails(s, 1) by { assert s.items[1][0] == 7; }
    assert First(rows, FallbackTier, 10) == Some(0);
    assert FallbackFails(Start(), steps, s, rows);
  }

  // ---- Two published versions ----

  function SecondVersion(): Row {
    DraftRow("a", 2, 0, 9, 2)
  }

  function Versions(one: Row, two: Row): State {
    State(0, LIMITS, map[1 := one, 2 := two], map[1 := [7], 2 := [7]], map[7 := READY])
  }

  function BothPublished(): State {
    Versions(PublishedRow(FirstVersion(), false, 0), PublishedRow(SecondVersion(), false, 0))
  }

  ghost predicate TwoPublished(s0: State, steps: seq<Step>, s: State, i: nat, j: nat) {
    && Initial(s0) && Run(s0, steps, s) && i in s.rows && j in s.rows && i != j
    && s.rows[i].status.Published? && s.rows[j].status.Published?
    && SameSlot(s.rows[i], s.rows[j]) && s.rows[i].urgent == s.rows[j].urgent
  }

  lemma ClonesAndPublishes()
    ensures exists rest :: Run(OneDraft(), rest, BothPublished())
  {
    var publish2, publish1 := Publish(2, false, true), Publish(1, false, true);
    var second := PublishedRow(SecondVersion(), false, 0);
    var s1, s2, s3 := Versions(FirstVersion(), SecondVersion()), Versions(FirstVersion(), second), BothPublished();
    OneItemIsReady(s1, 2);
    assert Next(s1, publish2) == s2;
    OneItemIsReady(s2, 1);
    assert Next(s2, publish1) == s3;
    RunStep(s2, publish1, [], s3);
    RunStep(s1, publish2, [publish1], s3);
    Clones([publish2] + [publish1], s3);
  }

  lemma Clones(rest: seq<Step>, s': State)
    requires Run(Versions(FirstVersion(), SecondVersion()), rest, s')
    ensures Run(OneDraft(), [Clone(1, 2, 1, 2)] + rest, s')
  {
    var clone := Clone(1, 2, 1, 2);
    assert OneDraft().rows[1].version == 1;
    assert Next(OneDraft(), clone) == Versions(FirstVersion(), SecondVersion());
    RunStep(OneDraft(), clone, rest, s');
  }

  /** A draft is cloned, the clone is published and then the draft: both versions stay published. */
  lemma TwoVersionsCanStayPublished()
    ensures exists s0: State, steps: seq<Step>, s: State, i: nat, j: nat :: TwoPublished(s0, steps, s, i, j)
  {
    ClonesAndPublishes();
    var s := BothPublished();
    var rest :| Run(OneDraft(), rest, s);
    Drafts(rest, s);
    var steps :| Run(Start(), steps, s);
    assert TwoPublished(Start(), steps, s, 1, 2);
  }
}
