/** Staging and activation of manifests, shared by the threads that queue or invalidate, the
    download loop, and the main thread.

    One locked block, one unlocked file operation or one posted message is one step. Only the main
    thread holds the lock across several file operations, so the lock is held exactly while
    `main` is not `Idle`. Every other locked block is a single step that needs the lock free. */
module ManifestStaging {
  import opened Options
  import opened ManifestPolicy

  /** A manifest with the generation under which it was queued. */
  datatype Candidate = Candidate(generation: nat, manifest: Manifest)

  /** Program points of the download loop, from taking a candidate to posting its activation. */
  datatype LoopPc =
    | Take
    | Validating(carried: Candidate)
    | Discarding(carried: Candidate)
    | Downloading(carried: Candidate, next: nat)
    | Committing(carried: Candidate)
    | Comparing(carried: Candidate, prepared: bool)
    | Posting(carried: Candidate)
  {
    predicate Carrying() { !Take? }
    /** Before the commit, while the loop may touch the staged file and the media files. */
    predicate Preparing() { Validating? || Discarding? || Downloading? || Committing? }
  }

  /** What the main thread is doing with the lock held, step by step of `activateStaged`. */
  datatype MainPc =
    | Idle
    | Reading(expected: Candidate)
    | Writing(candidate: Candidate)
    | Deleting(candidate: Candidate)
    | Pruning(candidate: Candidate)

  /** `media` maps a file name to the definition its bytes satisfy. `queued` and `activated` are
      history: what was queued under each generation, and which candidates became active. */
  datatype State = State(
    generation: nat,
    pending: Option<Candidate>,
    running: bool,
    starting: nat,
    loops: map<nat, LoopPc>,
    posted: multiset<Candidate>,
    stash: Option<Candidate>,
    main: MainPc,
    staged: Option<Candidate>,
    active: Option<Manifest>,
    shown: Option<Manifest>,
    media: map<nat, Definition>,
    queued: map<nat, Manifest>,
    activated: seq<Candidate>)

  datatype Outcome = Success | Failure | FailureAfterMove

  datatype Step =
    | Queue(manifest: Manifest)
    | StartLoop(thread: nat)
    | Loop(thread: nat, outcome: Outcome)
    | Invalidate
    | Deliver(message: Candidate, blocked: bool)
    | LoopBoundary
    | ClearStash
    | Main(outcome: Outcome)
    | PruneFile(file: nat)
    | Restart

  function MediaIds(m: Manifest): set<nat> {
    set i | 0 <= i < |m.items| :: m.items[i].mediaId
  }

  predicate ItemCached(media: map<nat, Definition>, item: Item) {
    item.mediaId in media && media[item.mediaId] == item.definition
  }

  predicate AllCached(media: map<nat, Definition>, items: seq<Item>) {
    forall i :: 0 <= i < |items| ==> ItemCached(media, items[i])
  }

  /** A manifest the player already shows is only activated at the next loop boundary. */
  predicate ActivatesImmediately(s: State, c: Candidate) {
    s.shown.None? || s.shown.value.identity != c.manifest.identity
  }

  predicate Enabled(s: State, step: Step) {
    match step
    case Queue(_) => s.main.Idle?
    case StartLoop(t) => s.starting > 0 && t !in s.loops
    case Loop(t, _) =>
      && t in s.loops
      && (s.loops[t].Take? || s.loops[t].Committing? || s.loops[t].Comparing? ==> s.main.Idle?)
    case Invalidate => s.main.Idle?
    case Deliver(message, _) => s.main.Idle? && message in s.posted
    case LoopBoundary => s.main.Idle? && s.stash.Some?
    case ClearStash => s.main.Idle?
    case Main(_) => !s.main.Idle?
    case PruneFile(file) => s.main.Pruning? && file in s.media && file !in MediaIds(s.main.candidate.manifest)
    case Restart => true
  }

  function QueueStep(s: State, m: Manifest): State {
    var g := s.generation + 1;
    s.(generation := g,
       staged := None,
       pending := Some(Candidate(g, m)),
       running := true,
       starting := if s.running then s.starting else s.starting + 1,
       queued := s.queued[g := m])
  }

  function TakeStep(s: State, t: nat): State
    requires t in s.loops
  {
    match s.pending
    case None => s.(running := false, loops := s.loops - {t})
    case Some(c) => s.(pending := None, loops := s.loops[t := Validating(c)])
  }

  function DownloadStep(s: State, t: nat, outcome: Outcome): (s': State)
    requires t in s.loops && s.loops[t].Downloading?
    ensures s' == s.(media := s'.media, loops := s'.loops)
  {
    var Downloading(c, i) := s.loops[t];
    if i >= |c.manifest.items| then s.(loops := s.loops[t := Committing(c)])
    else
      var item := c.manifest.items[i];
      if ItemCached(s.media, item) then s.(loops := s.loops[t := Downloading(c, i + 1)])
      else
        match outcome
        case Success =>
          s.(media := s.media[item.mediaId := item.definition], loops := s.loops[t := Downloading(c, i + 1)])
        case Failure => s.(loops := s.loops[t := Comparing(c, false)])
        case FailureAfterMove =>
          s.(media := s.media - {item.mediaId}, loops := s.loops[t := Comparing(c, false)])
  }

  function LoopStep(s: State, t: nat, outcome: Outcome): (s': State)
    requires t in s.loops
    ensures s' == s.(pending := s'.pending, running := s'.running, loops := s'.loops, posted := s'.posted,
                     staged := s'.staged, media := s'.media)
  {
    match s.loops[t]
    case Take => TakeStep(s, t)
    case Validating(c) =>
      s.(loops := s.loops[t := if ValidManifest(c.manifest) then Discarding(c) else Comparing(c, false)])
    case Discarding(c) =>
      // The storage check follows the unlocked discard and may refuse the candidate.
      s.(staged := None, loops := s.loops[t := if outcome.Success? then Downloading(c, 0) else Comparing(c, false)])
    case Downloading(_, _) => DownloadStep(s, t, outcome)
    case Committing(c) =>
      if s.generation == c.generation && outcome.Success?
      then s.(staged := Some(c), loops := s.loops[t := Comparing(c, true)])
      else s.(loops := s.loops[t := Comparing(c, false)])
    case Comparing(c, prepared) =>
      s.(loops := s.loops[t := if prepared && s.generation == c.generation then Posting(c) else Take])
    case Posting(c) => s.(posted := s.posted + multiset{c}, loops := s.loops[t := Take])
  }

  function DeliverStep(s: State, c: Candidate, blocked: bool): (s': State)
    ensures s' == s.(posted := s'.posted, stash := s'.stash, main := s'.main)
  {
    var s1 := s.(posted := s.posted - multiset{c});
    if blocked || c.generation != s.generation then s1
    else if ActivatesImmediately(s, c) then s1.(stash := None, main := Reading(c))
    else s1.(stash := Some(c))
  }

  /** The steps of `activateStaged`; a failed one gives up the lock and leaves the active file alone. */
  function MainStep(s: State, outcome: Outcome): (s': State)
    requires !s.main.Idle?
    ensures s' == s.(staged := s'.staged, active := s'.active, shown := s'.shown, activated := s'.activated,
                     main := s'.main)
  {
    match s.main
    case Reading(expected) =>
      if !outcome.Success? || s.staged.None? || s.staged.value.manifest.identity != expected.manifest.identity
      then s.(main := Idle)
      else s.(main := Writing(s.staged.value))
    case Writing(c) =>
      if outcome.Success?
      then s.(active := Some(c.manifest), activated := s.activated + [c], main := Deleting(c))
      else s.(main := Idle)
    case Deleting(c) => s.(staged := None, main := Pruning(c))
    case Pruning(c) => s.(shown := Some(c.manifest), main := Idle)
  }

  /** Process death keeps the files. A staged file left behind belongs to generation 0, under which
      nothing is ever queued. */
  function RestartStep(s: State): State {
    State(0, None, false, 0, map[], multiset{}, None, Idle,
          if s.staged.Some? then Some(s.staged.value.(generation := 0)) else None,
          s.active, s.active, s.media, map[], [])
  }

  function Next(s: State, step: Step): State
    requires Enabled(s, step)
  {
    match step
    case Queue(m) => QueueStep(s, m)
    case StartLoop(t) => s.(starting := s.starting - 1, loops := s.loops[t := Take])
    case Loop(t, outcome) => LoopStep(s, t, outcome)
    case Invalidate => s.(generation := s.generation + 1, staged := None)
    case Deliver(c, blocked) => DeliverStep(s, c, blocked)
    case LoopBoundary =>
      if s.stash.value.generation == s.generation then s.(stash := None, main := Reading(s.stash.value))
      else s.(stash := None)
    case ClearStash => s.(stash := None)
    case Main(outcome) => MainStep(s, outcome)
    case PruneFile(file) => s.(media := s.media - {file})
    case Restart => RestartStep(s)
  }

  ghost predicate Initial(s: State) {
    && s.generation == 0 && s.pending.None? && !s.running && s.starting == 0 && s.loops == map[]
    && s.posted == multiset{} && s.stash.None? && s.main.Idle? && s.queued == map[] && s.activated == []
    && s.staged.None? && s.shown == s.active
  }

  ghost predicate Run(s: State, steps: seq<Step>, s': State)
    decreases |steps|
  {
    if steps == [] then s == s'
    else Enabled(s, steps[0]) && Run(Next(s, steps[0]), steps[1..], s')
  }

  // ---- The invariant ----

  /** Exactly one drain loop is alive or about to start while `running`, none otherwise. */
  ghost predicate OneLoop(s: State) {
    && s.starting + |s.loops.Keys| == (if s.running then 1 else 0)
    && (s.pending.Some? ==> s.running)
  }

  /** Where the only loop is; a loop that does not exist holds no candidate, as one at `Take`. */
  ghost function LoopPoint(loops: map<nat, LoopPc>): LoopPc {
    if t :| t in loops then loops[t] else Take
  }

  /** The candidate the main thread is about to make active. */
  function Held(main: MainPc): Option<Candidate> {
    match main
    case Reading(c) => Some(c)
    case Writing(c) => Some(c)
    case _ => None
  }

  /** Candidates that left the loop: posted, stashed, or about to be activated. */
  ghost predicate Released(s: State, c: Candidate) {
    c in s.posted || s.stash == Some(c) || Held(s.main) == Some(c)
  }

  function LastActivated(activated: seq<Candidate>): nat {
    if activated == [] then 0 else activated[|activated| - 1].generation
  }

  /** A candidate is what was queued under its generation. */
  ghost predicate Genuine(queued: map<nat, Manifest>, c: Candidate) {
    c.generation in queued && queued[c.generation] == c.manifest
  }

  ghost predicate QueuedUnder(queued: map<nat, Manifest>, generation: nat) {
    forall g :: g in queued ==> 0 < g <= generation
  }

  /** What is released was queued, was not activated yet, and finds its own staged file while it is
      still current. */
  ghost predicate Sound(
    queued: map<nat, Manifest>, generation: nat, staged: Option<Candidate>, last: nat, c: Candidate)
  {
    && Genuine(queued, c) && c.generation != last
    && (c.generation == generation ==> staged == Some(c))
  }

  /** Nothing is posted twice. */
  ghost predicate PostedSound(
    posted: multiset<Candidate>, queued: map<nat, Manifest>, generation: nat, staged: Option<Candidate>, last: nat)
  {
    forall c :: c in posted ==> posted[c] == 1 && Sound(queued, generation, staged, last, c)
  }

  ghost predicate ReleasedSound(s: State) {
    var last := LastActivated(s.activated);
    && PostedSound(s.posted, s.queued, s.generation, s.staged, last)
    && (s.stash.Some? ==>
          s.stash.value !in s.posted && Sound(s.queued, s.generation, s.staged, last, s.stash.value))
    && (Held(s.main).Some? ==>
          Held(s.main).value !in s.posted && Sound(s.queued, s.generation, s.staged, last, Held(s.main).value))
  }

  ghost predicate PostedBelow(posted: multiset<Candidate>, generation: nat) {
    forall c :: c in posted ==> c.generation < generation
  }

  predicate Below(c: Option<Candidate>, generation: nat) {
    c.Some? ==> c.value.generation < generation
  }

  /** Everything released or activated is older than `generation`. */
  ghost predicate ReleasedBelow(s: State, generation: nat) {
    && PostedBelow(s.posted, generation) && Below(s.stash, generation) && Below(Held(s.main), generation)
    && LastActivated(s.activated) < generation
  }

  /** Activated generations strictly increase, and each activated what was queued under it. */
  ghost predicate History(queued: map<nat, Manifest>, activated: seq<Candidate>) {
    && (forall i :: 0 <= i < |activated| ==> Genuine(queued, activated[i]))
    && (forall i :: 0 < i < |activated| ==> activated[i - 1].generation < activated[i].generation)
  }

  /** A complete, valid candidate. */
  ghost predicate Deliverable(media: map<nat, Definition>, m: Manifest) {
    ValidManifest(m) && AllCached(media, m.items)
  }

  ghost predicate PendingSound(s: State, pc: LoopPc) {
    s.pending.Some? ==>
      && Genuine(s.queued, s.pending.value)
      && (pc.Carrying() ==> pc.carried.generation < s.pending.value.generation)
      && ReleasedBelow(s, s.pending.value.generation)
  }

  ghost predicate CarriedSound(s: State, pc: LoopPc) {
    pc.Carrying() ==>
      && Genuine(s.queued, pc.carried)
      && ReleasedBelow(s, pc.carried.generation)
      && ((pc.Comparing? && pc.prepared) || pc.Posting? ==>
            pc.carried.generation == s.generation ==> s.staged == Some(pc.carried))
      && (pc.Discarding? ==> ValidManifest(pc.carried.manifest))
      && (pc.Downloading? ==>
            && ValidManifest(pc.carried.manifest) && pc.next <= |pc.carried.manifest.items|
            && AllCached(s.media, pc.carried.manifest.items[..pc.next]))
      && (pc.Committing? ==> Deliverable(s.media, pc.carried.manifest))
  }

  /** The staged file: current generation, complete, and never there while the loop prepares. */
  ghost predicate StagedSound(s: State, pc: LoopPc) {
    s.staged.Some? ==>
      && s.staged.value.generation == s.generation
      && (s.generation > 0 ==> Genuine(s.queued, s.staged.value))
      && Deliverable(s.media, s.staged.value.manifest)
      && s.pending.None?
      && !pc.Preparing()
      && (pc.Comparing? ==> pc.prepared)
  }

  /** While the main thread activates, its candidate is the current one and the loop holds none. */
  ghost predicate ActivationAlone(s: State, pc: LoopPc) {
    && (!s.main.Idle? ==> s.pending.None? && pc.Take? && s.stash.None?)
    && (s.main.Reading? ==> s.main.expected.generation == s.generation)
    && (s.main.Writing? || s.main.Deleting? || s.main.Pruning? ==>
          s.main.candidate.generation == s.generation && Deliverable(s.media, s.main.candidate.manifest))
    && (s.main.Deleting? || s.main.Pruning? ==>
          LastActivated(s.activated) == s.generation && s.active == Some(s.main.candidate.manifest))
    && (s.main.Pruning? ==> s.staged.None?)
  }

  ghost predicate InvAt(s: State, pc: LoopPc) {
    && QueuedUnder(s.queued, s.generation)
    && History(s.queued, s.activated)
    && PendingSound(s, pc) && CarriedSound(s, pc) && ReleasedSound(s)
    && StagedSound(s, pc) && ActivationAlone(s, pc)
  }

  ghost predicate Inv(s: State) {
    OneLoop(s) && InvAt(s, LoopPoint(s.loops))
  }

  lemma InitialInv(s: State)
    requires Initial(s)
    ensures Inv(s)
  {}

  lemma LoopPointOf(loops: map<nat, LoopPc>, t: nat)
    requires loops.Keys == {t}
    ensures LoopPoint(loops) == loops[t]
  {
    var u :| u in loops && LoopPoint(loops) == loops[u];
    assert u in loops.Keys;
  }

  /** There is at most one loop, so where one loop is, the loop is. */
  lemma OnlyLoop(s: State, t: nat)
    requires OneLoop(s) && t in s.loops
    ensures s.loops.Keys == {t} && s.starting == 0 && s.running && LoopPoint(s.loops) == s.loops[t]
  {
    assert |s.loops.Keys - {t}| == |s.loops.Keys| - 1;
    LoopPointOf(s.loops, t);
  }

  lemma OnlyLoopMoves(s: State, t: nat, pc: LoopPc)
    requires OneLoop(s) && t in s.loops
    ensures LoopPoint(s.loops[t := pc]) == pc && s.loops[t := pc].Keys == s.loops.Keys
  {
    OnlyLoop(s, t);
    LoopPointOf(s.loops[t := pc], t);
  }

  /** The rest of the invariant does not see how the loop is started. */
  lemma SameCandidates(s: State, s': State, pc: LoopPc)
    requires InvAt(s, pc) && s' == s.(starting := s'.starting, loops := s'.loops)
    ensures InvAt(s', pc)
  {}

  /** Incrementing the generation makes everything that is in flight stale. */
  lemma AllStale(s: State, pc: LoopPc)
    requires InvAt(s, pc)
    ensures ReleasedBelow(s, s.generation + 1)
    ensures pc.Carrying() ==> pc.carried.generation < s.generation + 1
    ensures s.pending.Some? ==> s.pending.value.generation < s.generation + 1
  {
    forall c | Released(s, c) ensures c.generation < s.generation + 1 {
      assert Sound(s.queued, s.generation, s.staged, LastActivated(s.activated), c);
    }
    if s.activated != [] { assert Genuine(s.queued, s.activated[|s.activated| - 1]); }
  }

  lemma QueueInv(s: State, m: Manifest)
    requires Inv(s) && s.main.Idle?
    ensures Inv(QueueStep(s, m))
  {
    var s' := QueueStep(s, m);
    AllStale(s, LoopPoint(s.loops));
  }

  lemma InvalidateInv(s: State, s': State)
    requires Inv(s) && s.main.Idle? && s' == s.(generation := s.generation + 1, staged := None)
    ensures Inv(s')
  {
    AllStale(s, LoopPoint(s.loops));
  }

  lemma StartLoopInv(s: State, t: nat, s': State)
    requires Inv(s) && s.starting > 0 && s' == s.(starting := s.starting - 1, loops := s.loops[t := Take])
    ensures Inv(s')
  {
    assert s.loops.Keys == {};
    assert s'.loops.Keys == {t};
    LoopPointOf(s'.loops, t);
    SameCandidates(s, s', Take);
  }

  lemma TakeInv(s: State, t: nat)
    requires Inv(s) && s.main.Idle? && t in s.loops && s.loops[t].Take?
    ensures Inv(TakeStep(s, t))
  {
    OnlyLoop(s, t);
    var s' := TakeStep(s, t);
    if s.pending.Some? {
      OnlyLoopMoves(s, t, Validating(s.pending.value));
    } else {
      assert s'.loops.Keys == {};
    }
  }

  /** The facts about a loop point that concern the media files. */
  ghost predicate PointCached(media: map<nat, Definition>, pc: LoopPc) {
    && (pc.Discarding? ==> ValidManifest(pc.carried.manifest))
    && (pc.Downloading? ==>
          && ValidManifest(pc.carried.manifest) && pc.next <= |pc.carried.manifest.items|
          && AllCached(media, pc.carried.manifest.items[..pc.next]))
    && (pc.Committing? ==> Deliverable(media, pc.carried.manifest))
  }

  /** While the loop prepares nobody else uses the staged file or the media files: nothing is staged
      and the main thread is not activating. */
  lemma PreparingAlone(s: State, t: nat)
    requires Inv(s) && t in s.loops && s.loops[t].Preparing()
    ensures s.staged.None? && s.main.Idle?
  {
    OnlyLoop(s, t);
  }

  lemma PreparingMoves(s: State, t: nat, pc: LoopPc, media: map<nat, Definition>)
    requires Inv(s) && t in s.loops && s.loops[t].Preparing()
    requires pc.Carrying() && pc.carried == s.loops[t].carried && PointCached(media, pc)
    requires pc.Preparing() || (pc.Comparing? && !pc.prepared)
    ensures Inv(s.(media := media, loops := s.loops[t := pc]))
  {
    OnlyLoop(s, t);
    OnlyLoopMoves(s, t, pc);
    PreparingAlone(s, t);
  }

  lemma DownloadInv(s: State, t: nat, outcome: Outcome)
    requires Inv(s) && t in s.loops && s.loops[t].Downloading?
    ensures Inv(DownloadStep(s, t, outcome))
  {
    OnlyLoop(s, t);
    var s' := DownloadStep(s, t, outcome);
    var Downloading(c, i) := s.loops[t];
    if i < |c.manifest.items| {
      ItemDownloaded(s.media, c.manifest.items, i);
    } else {
      assert c.manifest.items[..i] == c.manifest.items;
    }
    PreparingMoves(s, t, s'.loops[t], s'.media);
    assert s' == s.(media := s'.media, loops := s.loops[t := s'.loops[t]]);
  }

  /** Entries that share the new file share its definition, so the earlier ones stay cached. */
  lemma ItemDownloaded(media: map<nat, Definition>, items: seq<Item>, i: nat)
    requires i < |items| && ConsistentDefinitions(items) && AllCached(media, items[..i])
    ensures AllCached(media[items[i].mediaId := items[i].definition], items[..i + 1])
    ensures ItemCached(media, items[i]) ==> AllCached(media, items[..i + 1])
  {
    var item := items[i];
    var fetched := media[item.mediaId := item.definition];
    assert items[..i + 1] == items[..i] + [item];
    forall k | 0 <= k < |items[..i]| ensures ItemCached(fetched, items[..i][k]) {
      assert ItemCached(media, items[..i][k]) && items[..i][k] == items[k];
    }
  }

  lemma CommitInv(s: State, t: nat)
    requires Inv(s) && s.main.Idle? && t in s.loops && s.loops[t].Committing?
    requires s.generation == s.loops[t].carried.generation
    ensures Inv(LoopStep(s, t, Success))
  {
    OnlyLoop(s, t);
    var s' := LoopStep(s, t, Success);
    OnlyLoopMoves(s, t, s'.loops[t]);
  }

  lemma CompareInv(s: State, t: nat, outcome: Outcome)
    requires Inv(s) && s.main.Idle? && t in s.loops && s.loops[t].Comparing?
    ensures Inv(LoopStep(s, t, outcome))
  {
    OnlyLoop(s, t);
    var s' := LoopStep(s, t, outcome);
    OnlyLoopMoves(s, t, s'.loops[t]);
  }

  lemma PostInv(s: State, t: nat, outcome: Outcome)
    requires Inv(s) && t in s.loops && s.loops[t].Posting?
    ensures Inv(LoopStep(s, t, outcome))
  {
    OnlyLoop(s, t);
    var s' := LoopStep(s, t, outcome);
    var c := s.loops[t].carried;
    OnlyLoopMoves(s, t, Take);
    assert c !in s.posted;
  }

  lemma LoopInv(s: State, t: nat, outcome: Outcome)
    requires Inv(s) && Enabled(s, Loop(t, outcome))
    ensures Inv(LoopStep(s, t, outcome))
  {
    OnlyLoop(s, t);
    var pc := s.loops[t];
    if pc.Take? {
      TakeInv(s, t);
    } else if pc.Downloading? {
      DownloadInv(s, t, outcome);
    } else if pc.Posting? {
      PostInv(s, t, outcome);
    } else if pc.Comparing? {
      CompareInv(s, t, outcome);
    } else if pc.Committing? && s.generation == pc.carried.generation && outcome.Success? {
      CommitInv(s, t);
    } else {
      MoveInv(s, t, outcome);
    }
  }

  lemma MoveInv(s: State, t: nat, outcome: Outcome)
    requires Inv(s) && Enabled(s, Loop(t, outcome)) && s.loops[t].Preparing() && !s.loops[t].Downloading?
    requires s.loops[t].Committing? ==> s.generation != s.loops[t].carried.generation || !outcome.Success?
    ensures Inv(LoopStep(s, t, outcome))
  {
    OnlyLoop(s, t);
    PreparingAlone(s, t);
    var s' := LoopStep(s, t, outcome);
    PreparingMoves(s, t, s'.loops[t], s.media);
    assert s' == s.(media := s.media, loops := s.loops[t := s'.loops[t]]);
  }

  /** A step of the main thread that consumes a message, moves a candidate to the stash or to its own
      hands, or drops one. */
  ghost predicate Consumes(s: State, s': State) {
    && s' == s.(posted := s'.posted, stash := s'.stash, main := s'.main)
    && s'.posted <= s.posted
    && (s'.stash.Some? ==> Released(s, s'.stash.value) && s'.stash.value !in s'.posted)
    && (Held(s'.main).Some? ==> Released(s, Held(s'.main).value) && Held(s'.main).value !in s'.posted)
  }

  lemma FewerPosted(s: State, posted: multiset<Candidate>)
    requires ReleasedSound(s) && posted <= s.posted
    ensures PostedSound(posted, s.queued, s.generation, s.staged, LastActivated(s.activated))
    ensures forall g :: PostedBelow(s.posted, g) ==> PostedBelow(posted, g)
  {
    assert forall c :: c in posted ==> c in s.posted && posted[c] <= s.posted[c];
  }

  lemma MainThreadInv(s: State, s': State)
    requires Inv(s) && Consumes(s, s') && ActivationAlone(s', LoopPoint(s.loops))
    ensures Inv(s')
  {
    FewerPosted(s, s'.posted);
  }

  /** While a released candidate is current, nothing is pending or carried. */
  lemma CurrentIsAlone(s: State, c: Candidate)
    requires Inv(s) && Released(s, c) && c.generation == s.generation
    ensures s.pending.None? && LoopPoint(s.loops).Take?
  {}

  /** A delivery drops the message, stashes its candidate or starts to activate it. */
  ghost predicate Delivered(s: State, c: Candidate, s': State) {
    var rest := s.(posted := s.posted - multiset{c});
    || s' == rest
    || (c.generation == s.generation && s' == rest.(stash := Some(c)))
    || (c.generation == s.generation && s' == rest.(stash := None, main := Reading(c)))
  }

  lemma DeliverInv(s: State, c: Candidate, s': State)
    requires Inv(s) && s.main.Idle? && c in s.posted && Delivered(s, c, s')
    ensures Inv(s')
  {
    assert s.posted[c] == 1;
    if c.generation == s.generation { CurrentIsAlone(s, c); }
    MainThreadInv(s, s');
  }

  lemma LoopBoundaryInv(s: State, s': State)
    requires Inv(s) && s.main.Idle? && s.stash.Some?
    requires s' == if s.stash.value.generation == s.generation
                   then s.(stash := None, main := Reading(s.stash.value)) else s.(stash := None)
    ensures Inv(s')
  {
    if s.stash.value.generation == s.generation { CurrentIsAlone(s, s.stash.value); }
    MainThreadInv(s, s');
  }

  lemma ClearStashInv(s: State, s': State)
    requires Inv(s) && s.main.Idle? && s' == s.(stash := None)
    ensures Inv(s')
  {
    MainThreadInv(s, s');
  }

  lemma ReadInv(s: State, outcome: Outcome)
    requires Inv(s) && s.main.Reading?
    ensures Inv(MainStep(s, outcome))
  {
    var s' := MainStep(s, outcome);
    assert Released(s, s.main.expected);
    MainThreadInv(s, s');
  }

  /** What is about to be activated is younger than everything activated before. */
  lemma ActivatedAfter(s: State, c: Candidate)
    requires Inv(s) && Released(s, c) && c.generation == s.generation
    ensures History(s.queued, s.activated + [c]) && LastActivated(s.activated + [c]) == c.generation
  {
    if s.activated != [] { assert Genuine(s.queued, s.activated[|s.activated| - 1]); }
    assert Sound(s.queued, s.generation, s.staged, LastActivated(s.activated), c);
  }

  lemma WriteInv(s: State)
    requires Inv(s) && s.main.Writing?
    ensures Inv(MainStep(s, Success))
  {
    assert Released(s, s.main.candidate);
    ActivatedAfter(s, s.main.candidate);
    forall c | c in s.posted ensures c.generation != s.generation {
      assert Sound(s.queued, s.generation, s.staged, LastActivated(s.activated), c);
    }
  }

  lemma DeleteOrPruneInv(s: State, outcome: Outcome)
    requires Inv(s) && (s.main.Deleting? || s.main.Pruning?)
    ensures Inv(MainStep(s, outcome))
  {
    var s' := MainStep(s, outcome);
    forall c | c in s.posted ensures c.generation != s.generation {
      assert Sound(s.queued, s.generation, s.staged, LastActivated(s.activated), c);
    }
  }

  lemma MainInv(s: State, outcome: Outcome)
    requires Inv(s) && !s.main.Idle?
    ensures Inv(MainStep(s, outcome))
  {
    match s.main
    case Reading(_) => ReadInv(s, outcome);
    case Writing(_) =>
      if outcome.Success? {
        assert MainStep(s, outcome) == MainStep(s, Success);
        WriteInv(s);
      } else {
        MainThreadInv(s, MainStep(s, outcome));
      }
    case _ => DeleteOrPruneInv(s, outcome);
  }

  lemma PruneFileInv(s: State, file: nat, s': State)
    requires Inv(s) && Enabled(s, PruneFile(file)) && s' == s.(media := s.media - {file})
    ensures Inv(s')
  {
    var items := s.main.candidate.manifest.items;
    forall i | 0 <= i < |items| ensures ItemCached(s'.media, items[i]) {
      assert items[i].mediaId in MediaIds(s.main.candidate.manifest);
    }
  }

  lemma RestartInv(s: State)
    requires Inv(s)
    ensures Inv(RestartStep(s))
  {}

  lemma MainThreadStepInv(s: State, step: Step)
    requires Inv(s) && Enabled(s, step) && (step.Deliver? || step.LoopBoundary? || step.ClearStash? || step.Main?)
    ensures Inv(Next(s, step))
  {
    match step
    case Deliver(c, blocked) => DeliverInv(s, c, Next(s, step));
    case LoopBoundary => LoopBoundaryInv(s, Next(s, step));
    case ClearStash => ClearStashInv(s, Next(s, step));
    case Main(outcome) => MainInv(s, outcome);
  }

  lemma QueueingStepInv(s: State, step: Step)
    requires Inv(s) && Enabled(s, step) && (step.Queue? || step.StartLoop? || step.Invalidate?)
    ensures Inv(Next(s, step))
  {
    if step.Queue? {
      QueueInv(s, step.manifest);
    } else if step.StartLoop? {
      StartLoopInv(s, step.thread, Next(s, step));
    } else {
      InvalidateInv(s, Next(s, step));
    }
  }

  lemma FileStepInv(s: State, step: Step)
    requires Inv(s) && Enabled(s, step) && (step.PruneFile? || step.Restart?)
    ensures Inv(Next(s, step))
  {
    match step
    case PruneFile(file) => PruneFileInv(s, file, Next(s, step));
    case Restart => RestartInv(s);
  }

  lemma StepInv(s: State, step: Step)
    requires Inv(s) && Enabled(s, step)
    ensures Inv(Next(s, step))
  {
    if step.Queue? || step.StartLoop? || step.Invalidate? {
      QueueingStepInv(s, step);
    } else if step.Loop? {
      LoopInv(s, step.thread, step.outcome);
    } else if step.PruneFile? || step.Restart? {
      FileStepInv(s, step);
    } else {
      MainThreadStepInv(s, step);
    }
  }

  lemma {:induction false} RunInv(s: State, steps: seq<Step>, s': State)
    requires Inv(s) && Run(s, steps, s')
    ensures Inv(s')
    decreases |steps|
  {
    if steps != [] {
      StepInv(s, steps[0]);
      RunInv(Next(s, steps[0]), steps[1..], s');
    }
  }

  // ---- What every run guarantees ----

  /** At most one drain loop, no candidate without one, the staged file is always current, and
      activated generations strictly increase. */
  lemma StagingIsSafe(s0: State, steps: seq<Step>, s: State)
    requires Initial(s0) && Run(s0, steps, s)
    ensures |s.loops| <= 1 && (!s.running ==> s.pending.None? && s.loops == map[] && s.starting == 0)
    ensures s.staged.Some? ==> s.staged.value.generation == s.generation
    ensures forall i, j :: 0 <= i < j < |s.activated| ==> s.activated[i].generation < s.activated[j].generation
  {
    InitialInv(s0);
    RunInv(s0, steps, s);
    assert |s.loops| == |s.loops.Keys|;
    Increasing(s.queued, s.activated);
  }

  lemma {:induction false} Increasing(queued: map<nat, Manifest>, activated: seq<Candidate>)
    requires History(queued, activated)
    ensures forall i, j :: 0 <= i < j < |activated| ==> activated[i].generation < activated[j].generation
  {
    if |activated| > 1 {
      var front := activated[..|activated| - 1];
      Increasing(queued, front);
      forall i | 0 <= i < |front| ensures activated[i].generation < activated[|front|].generation {
        assert front[i].generation <= front[|front| - 1].generation;
      }
      forall i, j | 0 <= i < j < |activated| ensures activated[i].generation < activated[j].generation {
        if j < |front| { assert front[i].generation < front[j].generation; }
      }
    }
  }

  lemma OnlyWritingActivates(s: State, step: Step)
    requires Enabled(s, step) && |Next(s, step).activated| > |s.activated|
    ensures s.main.Writing? && Next(s, step).active == Some(s.main.candidate.manifest)
    ensures Next(s, step).activated == s.activated + [s.main.candidate]
  {
    if !step.Main? { OthersDoNotActivate(s, step); }
  }

  lemma OthersDoNotActivate(s: State, step: Step)
    requires Enabled(s, step) && !step.Main?
    ensures |Next(s, step).activated| <= |s.activated|
  {
    match step
    case Loop(t, outcome) => assert LoopStep(s, t, outcome).activated == s.activated;
    case _ =>
  }

  lemma WritesTheLatest(s: State)
    requires Inv(s) && s.main.Writing?
    ensures var c := s.main.candidate;
            c.generation == s.generation && Genuine(s.queued, c) && Deliverable(s.media, c.manifest)
  {
    assert Released(s, s.main.candidate);
  }

  /** What becomes the active manifest is what was queued last, and nothing invalidated it since. */
  lemma ActivatesTheLatest(s0: State, steps: seq<Step>, s: State, step: Step)
    requires Initial(s0) && Run(s0, steps, s) && Enabled(s, step)
    requires |Next(s, step).activated| > |s.activated|
    ensures var c := Next(s, step).activated[|s.activated|];
            && c.generation == s.generation && Genuine(s.queued, c)
            && Next(s, step).active == Some(c.manifest) && Deliverable(s.media, c.manifest)
  {
    InitialInv(s0);
    RunInv(s0, steps, s);
    OnlyWritingActivates(s, step);
    WritesTheLatest(s);
  }

  /** A staged manifest can be played from the cache: every media file it names is present with the
      right bytes. The unlocked discard of a starting preparation therefore never destroys one, and a
      released candidate that is still current always finds its own. */
  lemma StagedIsPlayable(s0: State, steps: seq<Step>, s: State)
    requires Initial(s0) && Run(s0, steps, s)
    ensures s.staged.Some? ==> Deliverable(s.media, s.staged.value.manifest)
    ensures (exists t :: t in s.loops && s.loops[t].Preparing()) ==> s.staged.None?
    ensures forall c :: Released(s, c) && c.generation == s.generation ==> s.staged == Some(c)
  {
    InitialInv(s0);
    RunInv(s0, steps, s);
    forall t | t in s.loops && s.loops[t].Preparing() ensures s.staged.None? {
      PreparingAlone(s, t);
    }
    forall c | Released(s, c) && c.generation == s.generation ensures s.staged == Some(c) {
      assert Sound(s.queued, s.generation, s.staged, LastActivated(s.activated), c);
    }
  }

  /** The prune runs alone, and everything the active manifest needs survives it. */
  lemma PruneIsSafe(s0: State, steps: seq<Step>, s: State, step: Step)
    requires Initial(s0) && Run(s0, steps, s) && Enabled(s, step) && s.main.Pruning? && !step.Restart?
    ensures forall t :: t in s.loops ==> s.loops[t].Take?
    ensures s.active.Some? && Next(s, step).active == s.active
    ensures Deliverable(Next(s, step).media, s.active.value)
  {
    InitialInv(s0);
    RunInv(s0, steps, s);
    StepInv(s, step);
    forall t | t in s.loops ensures s.loops[t].Take? {
      OnlyLoop(s, t);
    }
    if step.Main? {
      assert Next(s, step).media == s.media;
    } else if step.StartLoop? {
      assert Next(s, step).media == s.media;
    } else {
      assert Next(s, step).main == s.main;
    }
  }
}
