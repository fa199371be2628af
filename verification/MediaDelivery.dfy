/** The dashboard's transactions and the processing of every media asset, run together: workers, leases, archivals
    and deletions of all assets beside the editing and publication of playlists. Archival is guarded by the check
    for playlists that still show the media, and an object is deleted only after archival. */
module MediaDelivery {
  import opened Options
  import P = PlaylistLifecycle
  import F = MediaFencing

  /** `assets` holds the processing state of each uploaded asset, with its part of the storage. */
  datatype State = State(play: P.State, assets: map<nat, F.State>)

  datatype Step =
    | Dashboard(transaction: P.Step)
    | Upload(m: nat, durationMs: nat, asset: F.State)
    | Asset(m: nat, step: F.Step)

  ghost predicate Enabled(s: State, step: Step) {
    match step
    case Dashboard(p) => !p.Upload? && !p.Process? && !p.Archive? && P.Enabled(s.play, p)
    case Upload(m, durationMs, asset) =>
      m !in s.assets && P.Enabled(s.play, P.Upload(m, durationMs)) && F.Initial(asset)
    case Asset(m, f) =>
      && m in s.assets && m in s.play.media && F.Enabled(s.assets[m], f)
      && (f.Archive? ==> !P.IsReferenced(s.play, m))
  }

  function StatusOf(status: F.Status): P.MediaStatus {
    match status
    case Quarantined => P.Quarantined
    case Processing => P.Processing
    case Ready => P.Ready
    case Rejected => P.Rejected
    case Archived => P.MediaStatus.Removed
  }

  /** The media row as the dashboard sees it once the asset has the given status. */
  function Seen(o: P.Media, status: F.Status): P.Media {
    if StatusOf(status) == o.status then o
    else if status.Archived? then o.(status := P.MediaStatus.Removed)
    else P.ProcessedMedia(o, StatusOf(status))
  }

  ghost function Next(s: State, step: Step): State
    requires Enabled(s, step)
  {
    match step
    case Dashboard(p) => s.(play := P.Next(s.play, p))
    case Upload(m, durationMs, asset) => State(P.Next(s.play, P.Upload(m, durationMs)), s.assets[m := asset])
    case Asset(m, f) =>
      var asset := F.Next(s.assets[m], f);
      State(s.play.(media := s.play.media[m := Seen(s.play.media[m], asset.row.status)]), s.assets[m := asset])
  }

  ghost predicate Initial(s: State) {
    P.Initial(s.play) && s.assets == map[]
  }

  ghost predicate Run(s: State, steps: seq<Step>, s': State)
    decreases |steps|
  {
    if steps == [] then s == s'
    else Enabled(s, steps[0]) && Run(Next(s, steps[0]), steps[1..], s')
  }

  // ---- The dashboard sees only its own transactions ----

  /** The dashboard's media rows carry the status of the assets. */
  ghost predicate Linked(s: State) {
    && s.assets.Keys == s.play.media.Keys
    && forall m :: m in s.assets ==> s.play.media[m].status == StatusOf(s.assets[m].row.status)
  }

  /** A step of an asset changes its status as the dashboard's own steps may, or not at all. */
  lemma AssetStatus(a: F.State, f: F.Step)
    requires F.Enabled(a, f)
    ensures var from, to := StatusOf(a.row.status), StatusOf(F.Next(a, f).row.status);
            if f.Archive? then to.Removed? else from == to || P.MayProcess(from, to)
  {}

  lemma DashboardKeepsMedia(play: P.State, p: P.Step)
    requires P.Enabled(play, p) && !p.Upload? && !p.Process? && !p.Archive?
    ensures P.Next(play, p).media == play.media
  {}

  lemma StepLinked(s: State, step: Step)
    requires Linked(s) && Enabled(s, step)
    ensures Linked(Next(s, step))
  {
    match step
    case Dashboard(p) => DashboardKeepsMedia(s.play, p);
    case Asset(m, f) => AssetStatus(s.assets[m], f);
    case Upload(_, _, _) =>
  }

  /** Every step is one of the dashboard's own transactions, or leaves what the dashboard sees as it is. */
  lemma StepRefines(s: State, step: Step)
    requires Linked(s) && Enabled(s, step)
    ensures Next(s, step).play == s.play
            || exists p :: P.Enabled(s.play, p) && Next(s, step).play == P.Next(s.play, p)
  {
    if step.Upload? {
      assert P.Enabled(s.play, P.Upload(step.m, step.durationMs));
    } else if step.Asset? {
      AssetRefines(s, step.m, step.step);
    }
  }

  lemma AssetRefines(s: State, m: nat, f: F.Step)
    requires Linked(s) && Enabled(s, Asset(m, f))
    ensures Next(s, Asset(m, f)).play == s.play
            || exists p :: P.Enabled(s.play, p) && Next(s, Asset(m, f)).play == P.Next(s.play, p)
  {
    AssetStatus(s.assets[m], f);
    var o, to := s.play.media[m], StatusOf(F.Next(s.assets[m], f).row.status);
    if to == o.status {
      assert s.play.media[m := o] == s.play.media;
    } else if f.Archive? {
      assert P.Enabled(s.play, P.Archive(m));
    } else {
      assert P.Enabled(s.play, P.Process(m, to));
    }
  }

  /** So every run together is a run of the dashboard, and all its guarantees hold. */
  lemma {:induction false} RunRefines(s: State, steps: seq<Step>, s': State) returns (dashboard: seq<P.Step>)
    requires Linked(s) && Run(s, steps, s')
    ensures Linked(s') && P.Run(s.play, dashboard, s'.play)
    decreases |steps|
  {
    if steps == [] {
      dashboard := [];
    } else {
      var s1 := Next(s, steps[0]);
      StepLinked(s, steps[0]);
      StepRefines(s, steps[0]);
      var rest := RunRefines(s1, steps[1..], s');
      if s1.play == s.play {
        dashboard := rest;
      } else {
        var p :| P.Enabled(s.play, p) && s1.play == P.Next(s.play, p);
        dashboard := [p] + rest;
        assert dashboard[1..] == rest;
      }
    }
  }

  ghost predicate AssetsSound(assets: map<nat, F.State>) {
    forall m :: m in assets ==> F.Inv(assets[m])
  }

  lemma StepAssets(s: State, step: Step)
    requires AssetsSound(s.assets) && Enabled(s, step)
    ensures AssetsSound(Next(s, step).assets)
  {
    match step
    case Dashboard(_) =>
    case Upload(_, _, asset) => F.InitialInv(asset);
    case Asset(m, f) => F.StepInv(s.assets[m], f);
  }

  lemma {:induction false} RunAssets(s: State, steps: seq<Step>, s': State)
    requires AssetsSound(s.assets) && Run(s, steps, s')
    ensures AssetsSound(s'.assets)
    decreases |steps|
  {
    if steps != [] {
      StepAssets(s, steps[0]);
      RunAssets(Next(s, steps[0]), steps[1..], s');
    }
  }

  /** In every joint state the dashboard knows exactly the uploaded assets, and each in the state its workers left
      it: what it takes for validated is validated. */
  lemma DashboardSeesTheAssets(s0: State, steps: seq<Step>, s: State, m: nat)
    requires Initial(s0) && Run(s0, steps, s)
    ensures m in s.play.media <==> m in s.assets
    ensures m in s.assets ==>
              var seen, row := s.play.media[m].status, s.assets[m].row.status;
              && (seen.Quarantined? <==> row.Quarantined?) && (seen.Processing? <==> row.Processing?)
              && (seen.Ready? <==> row.Ready?) && (seen.Rejected? <==> row.Rejected?)
              && (seen.Removed? <==> row.Archived?)
  {
    var dashboard := RunRefines(s0, steps, s);
    assert m in s.assets.Keys <==> m in s.play.media.Keys;
  }

  // ---- What is published can be delivered ----

  /** The asset is validated and the object its row names is in storage. */
  predicate HasObject(a: F.State) {
    a.row.status.Ready? && a.row.normalizedFile.Some? && a.row.normalizedFile.value in a.storage
  }

  /** In every state reached by dashboard, workers, stale workers, recoveries, archivals and deletions together,
      each medium of a published playlist that has not ended is validated and its object is in storage. */
  lemma PublishedObjectsExist(s0: State, steps: seq<Step>, s: State, p: nat, k: nat)
    requires Initial(s0) && Run(s0, steps, s)
    requires p in s.play.rows && s.play.rows[p].status.Published? && s.play.rows[p].endsAt >= s.play.now
    ensures p in s.play.items
    ensures k < |s.play.items[p]| ==> s.play.items[p][k] in s.assets && HasObject(s.assets[s.play.items[p][k]])
  {
    var dashboard := RunRefines(s0, steps, s);
    P.PublishedIsDeliverable(s0.play, dashboard, s.play, p);
    RunAssets(s0, steps, s);
    if k < |s.play.items[p]| {
      var m := s.play.items[p][k];
      assert s.play.media[m].status.Ready?;
      assert F.Inv(s.assets[m]);
    }
  }
}
