/** What becomes of a queued manifest when nothing goes wrong: it is activated, within a number of
    steps that is known in advance. */
module ManifestSettling {
  import opened Options
  import opened ManifestPolicy
  import opened ManifestStaging

  /** A step in which nothing fails, nothing is blocked, and nothing newer is queued. */
  predicate Smooth(step: Step) {
    match step
    case StartLoop(_) => true
    case Loop(_, outcome) => outcome.Success?
    case Deliver(_, blocked) => !blocked
    case LoopBoundary => true
    case Main(outcome) => outcome.Success?
    case PruneFile(_) => true
    case _ => false
  }

  predicate AllSmooth(steps: seq<Step>) {
    forall i :: 0 <= i < |steps| ==> Smooth(steps[i])
  }

  /** No download loop, no message and no step of the main thread is left. */
  ghost predicate AtRest(s: State) {
    s.starting == 0 && s.loops == map[] && s.posted == multiset{} && s.main.Idle?
  }

  ghost predicate Settled(s: State) {
    AtRest(s) && s.stash.None?
  }

  // ---- The newest candidate is always somewhere on its way ----

  /** `c` was activated last; what is left of its activation at most. */
  ghost predicate Activated(s: State, c: Candidate) {
    && s.activated != [] && s.activated[|s.activated| - 1] == c && s.active == Some(c.manifest)
    && (s.main.Deleting? || s.main.Pruning? || s.shown == Some(c.manifest))
  }

  ghost predicate InLoop(s: State, c: Candidate) {
    var pc := LoopPoint(s.loops);
    pc.Carrying() && pc.carried == c && (pc.Comparing? ==> pc.prepared)
  }

  ghost predicate OnItsWay(s: State, c: Candidate) {
    s.pending == Some(c) || InLoop(s, c) || Released(s, c) || Activated(s, c)
  }

  /** `c` is the newest candidate, is valid, and is on its way. */
  ghost predicate Coming(s: State, c: Candidate) {
    && c.generation == s.generation && Genuine(s.queued, c) && ValidManifest(c.manifest)
    && OnItsWay(s, c)
  }

  lemma QueuedIsComing(s: State, m: Manifest)
    requires Inv(s) && s.main.Idle? && ValidManifest(m)
    ensures Coming(Next(s, Queue(m)), Candidate(s.generation + 1, m))
  {}

  /** Whatever is released and current is `c` itself. */
  lemma CurrentIsNewest(s: State, c: Candidate, other: Candidate)
    requires ReleasedSound(s) && Coming(s, c) && Released(s, other) && other.generation == s.generation
    ensures other == c && s.staged == Some(c) && LastActivated(s.activated) != c.generation
  {
    assert Sound(s.queued, s.generation, s.staged, LastActivated(s.activated), other);
  }

  lemma PostedStays(s: State, t: nat, c: Candidate)
    requires t in s.loops && c in s.posted
    ensures c in LoopStep(s, t, Success).posted
  {}

  /** The candidate in the loop goes from point to point, and is posted in the end. */
  lemma CarriedAdvances(s: State, c: Candidate, t: nat)
    requires t in s.loops && c.generation == s.generation && ValidManifest(c.manifest)
    requires s.loops[t].Carrying() && s.loops[t].carried == c && (s.loops[t].Comparing? ==> s.loops[t].prepared)
    ensures var s' := LoopStep(s, t, Success);
            && t in s'.loops && s'.loops.Keys == s.loops.Keys
            && var pc := s'.loops[t];
               if s.loops[t].Posting? then c in s'.posted
               else pc.Carrying() && pc.carried == c && (pc.Comparing? ==> pc.prepared)
  {}

  lemma LoopAdvances(s: State, c: Candidate, t: nat)
    requires OneLoop(s) && t in s.loops && c.generation == s.generation && ValidManifest(c.manifest)
    requires s.pending == Some(c) || InLoop(s, c)
    ensures var s' := LoopStep(s, t, Success); s'.pending == Some(c) || InLoop(s', c) || c in s'.posted
  {
    OnlyLoop(s, t);
    var s' := LoopStep(s, t, Success);
    if InLoop(s, c) {
      CarriedAdvances(s, c, t);
      LoopPointOf(s'.loops, t);
    } else if s.loops[t].Take? {
      OnlyLoopMoves(s, t, Validating(c));
    }
  }

  lemma LoopComing(s: State, c: Candidate, t: nat)
    requires OneLoop(s) && Coming(s, c) && t in s.loops
    ensures Coming(LoopStep(s, t, Success), c)
  {
    if s.pending == Some(c) || InLoop(s, c) {
      LoopAdvances(s, c, t);
    } else if c in s.posted {
      PostedStays(s, t, c);
    }
  }

  lemma DeliverComing(s: State, c: Candidate, message: Candidate)
    requires ReleasedSound(s) && Coming(s, c) && message in s.posted && s.main.Idle?
    ensures Coming(DeliverStep(s, message, false), c)
  {
    if message.generation == s.generation {
      CurrentIsNewest(s, c, message);
    }
  }

  lemma MainComing(s: State, c: Candidate)
    requires ReleasedSound(s) && ActivationAlone(s, LoopPoint(s.loops)) && Coming(s, c) && !s.main.Idle?
    ensures Coming(MainStep(s, Success), c)
  {
    if Held(s.main).Some? {
      CurrentIsNewest(s, c, Held(s.main).value);
    }
  }

  lemma SmoothComing(s: State, c: Candidate, step: Step)
    requires Inv(s) && Coming(s, c) && Enabled(s, step) && Smooth(step)
    ensures Coming(Next(s, step), c)
  {
    match step
    case StartLoop(t) => assert s.loops.Keys == {};
    case Loop(t, _) => LoopComing(s, c, t);
    case Deliver(message, _) => DeliverComing(s, c, message);
    case LoopBoundary =>
    case Main(_) => MainComing(s, c);
    case PruneFile(_) =>
  }

  /** `c` needs no loop boundary: it differs from what is shown, so it is not stashed. */
  ghost predicate Direct(s: State, c: Candidate) {
    || Activated(s, c)
    || ((s.shown.None? || s.shown.value.identity != c.manifest.identity) && s.stash != Some(c))
  }

  lemma MainDirect(s: State, c: Candidate)
    requires ReleasedSound(s) && ActivationAlone(s, LoopPoint(s.loops)) && Coming(s, c) && Direct(s, c) && !s.main.Idle?
    requires History(s.queued, s.activated)
    ensures Direct(MainStep(s, Success), c)
  {
    if Held(s.main).Some? {
      CurrentIsNewest(s, c, Held(s.main).value);
    } else {
      assert s.activated != [] ==> Genuine(s.queued, s.activated[|s.activated| - 1]);
    }
  }

  lemma DeliverDirect(s: State, c: Candidate, message: Candidate)
    requires ReleasedSound(s) && Coming(s, c) && Direct(s, c) && message in s.posted && s.main.Idle?
    ensures Direct(DeliverStep(s, message, false), c)
  {
    if message.generation == s.generation { CurrentIsNewest(s, c, message); }
  }

  lemma SmoothDirect(s: State, c: Candidate, step: Step)
    requires Inv(s) && Coming(s, c) && Direct(s, c) && Enabled(s, step) && Smooth(step)
    ensures Direct(Next(s, step), c)
  {
    match step
    case Deliver(message, _) => DeliverDirect(s, c, message);
    case Main(_) => MainDirect(s, c);
    case _ =>
  }

  /** One smooth step keeps everything that the run lemmas need. */
  ghost predicate Way(s: State, c: Candidate, direct: bool) {
    Inv(s) && Coming(s, c) && (direct ==> Direct(s, c))
  }

  lemma SmoothWay(s: State, c: Candidate, direct: bool, step: Step)
    requires Way(s, c, direct) && Enabled(s, step) && Smooth(step)
    ensures Way(Next(s, step), c, direct)
  {
    StepInv(s, step);
    SmoothComing(s, c, step);
    if direct { SmoothDirect(s, c, step); }
  }

  lemma {:induction false} RunWay(s: State, c: Candidate, direct: bool, steps: seq<Step>, s': State)
    requires Way(s, c, direct) && Run(s, steps, s') && AllSmooth(steps)
    ensures Way(s', c, direct)
    decreases |steps|
  {
    if steps != [] {
      SmoothWay(s, c, direct, steps[0]);
      RunWay(Next(s, steps[0]), c, direct, steps[1..], s');
    }
  }

  // ---- Every smooth run is bounded ----

  /** An upper bound on the steps that a loop at `pc` and what it will post still take. */
  function LoopWork(pc: LoopPc): nat {
    match pc
    case Take => 1
    case Validating(c) => 13 + 2 * |c.manifest.items|
    case Discarding(c) => 12 + 2 * |c.manifest.items|
    case Downloading(c, next) => 11 + 2 * (if next <= |c.manifest.items| then |c.manifest.items| - next else 0)
    case Committing(_) => 10
    case Comparing(_, _) => 9
    case Posting(_) => 8
  }

  function MainWork(main: MainPc): nat {
    match main
    case Reading(_) => 4
    case Writing(_) => 3
    case Deleting(_) => 2
    case Pruning(_) => 1
    case Idle => 0
  }

  ghost function LoopsWork(loops: map<nat, LoopPc>): nat {
    if loops.Keys == {} then 0 else LoopWork(LoopPoint(loops))
  }

  function PendingWork(pending: Option<Candidate>): nat {
    if pending.Some? then 13 + 2 * |pending.value.manifest.items| else 0
  }

  function StashWork(stash: Option<Candidate>): nat {
    if stash.Some? then 5 else 0
  }

  /** An upper bound on the steps left. The pruning counts with the files there are, since each is
      removed at most once. */
  ghost function Work(s: State): nat {
    |s.media| + 2 * s.starting + PendingWork(s.pending) + LoopsWork(s.loops) + 6 * |s.posted|
    + StashWork(s.stash) + MainWork(s.main)
  }

  lemma Stored(media: map<nat, Definition>, id: nat, definition: Definition)
    ensures |media[id := definition]| <= |media| + 1
  {
    assert media[id := definition].Keys == media.Keys + {id};
  }

  /** One more file at most, for one entry less. */
  lemma DownloadWorks(s: State, t: nat)
    requires t in s.loops && s.loops[t].Downloading?
    ensures var s' := DownloadStep(s, t, Success);
            && t in s'.loops && |s'.media| + LoopWork(s'.loops[t]) < |s.media| + LoopWork(s.loops[t])
  {
    var Downloading(c, i) := s.loops[t];
    if i < |c.manifest.items| {
      var item := c.manifest.items[i];
      Stored(s.media, item.mediaId, item.definition);
    }
  }

  lemma Moved(loops: map<nat, LoopPc>, t: nat, loops': map<nat, LoopPc>)
    requires loops.Keys == {t}
    ensures loops' == loops - {t} ==> LoopsWork(loops') == 0
    ensures loops'.Keys == {t} ==> LoopsWork(loops') == LoopWork(loops'[t])
  {
    if loops'.Keys == {t} { LoopPointOf(loops', t); }
  }

  lemma TakeWorks(s: State, t: nat)
    requires s.loops.Keys == {t} && s.loops[t].Take?
    ensures Work(TakeStep(s, t)) < Work(s)
  {
    Moved(s.loops, t, s.loops);
    Moved(s.loops, t, TakeStep(s, t).loops);
  }

  lemma OneMessage(posted: multiset<Candidate>, c: Candidate)
    ensures |posted + multiset{c}| == |posted| + 1
    ensures c in posted ==> |posted - multiset{c}| == |posted| - 1
  {}

  ghost predicate Moves(s: State, t: nat, s': State) {
    && t in s.loops && t in s'.loops
    && s' == s.(staged := s'.staged, posted := s'.posted, loops := s.loops[t := s'.loops[t]])
  }

  lemma PointWorks(s: State, t: nat)
    requires t in s.loops && !s.loops[t].Take? && !s.loops[t].Downloading?
    ensures var s' := LoopStep(s, t, Success);
            && Moves(s, t, s')
            && LoopWork(s'.loops[t]) + (if s.loops[t].Posting? then 6 else 0) < LoopWork(s.loops[t])
            && s'.posted == if s.loops[t].Posting? then s.posted + multiset{s.loops[t].carried} else s.posted
  {}

  lemma MoveWorks(s: State, t: nat, s': State)
    requires s.loops.Keys == {t} && Moves(s, t, s')
    requires LoopWork(s'.loops[t]) + 6 * |s'.posted| < LoopWork(s.loops[t]) + 6 * |s.posted|
    ensures Work(s') < Work(s)
  {
    Moved(s.loops, t, s.loops);
    Moved(s.loops, t, s'.loops);
  }

  lemma LoopWorks(s: State, t: nat)
    requires OneLoop(s) && t in s.loops
    ensures Work(LoopStep(s, t, Success)) < Work(s)
  {
    OnlyLoop(s, t);
    var s' := LoopStep(s, t, Success);
    if s.loops[t].Downloading? {
      Moved(s.loops, t, s.loops);
      Moved(s.loops, t, s'.loops);
      DownloadWorks(s, t);
      assert s'.loops.Keys == {t};
    } else if s.loops[t].Take? {
      TakeWorks(s, t);
    } else {
      PointWorks(s, t);
      if s.loops[t].Posting? { OneMessage(s.posted, s.loops[t].carried); }
      MoveWorks(s, t, s');
    }
  }

  lemma DeliverWorks(s: State, message: Candidate)
    requires message in s.posted && s.main.Idle?
    ensures Work(DeliverStep(s, message, false)) < Work(s)
  {
    OneMessage(s.posted, message);
  }

  lemma MainWorks(s: State)
    requires !s.main.Idle?
    ensures Work(MainStep(s, Success)) < Work(s)
  {
    var s' := MainStep(s, Success);
    assert MainWork(s'.main) < MainWork(s.main);
  }

  lemma FileWorks(s: State, file: nat)
    requires file in s.media
    ensures Work(s.(media := s.media - {file})) < Work(s)
  {
    assert (s.media - {file}).Keys == s.media.Keys - {file};
  }

  lemma StartWorks(s: State, t: nat)
    requires OneLoop(s) && s.starting > 0
    ensures Work(s.(starting := s.starting - 1, loops := s.loops[t := Take])) < Work(s)
  {
    Moved(map[t := Take], t, s.loops[t := Take]);
  }

  lemma SmoothWorks(s: State, step: Step)
    requires OneLoop(s) && Enabled(s, step) && Smooth(step)
    ensures Work(Next(s, step)) < Work(s)
  {
    match step
    case StartLoop(t) => StartWorks(s, t);
    case Loop(t, _) => LoopWorks(s, t);
    case Deliver(message, _) => DeliverWorks(s, message);
    case LoopBoundary =>
    case Main(_) => MainWorks(s);
    case PruneFile(file) => FileWorks(s, file);
  }

  lemma SmoothOneLoop(s: State, step: Step)
    requires OneLoop(s) && Enabled(s, step) && Smooth(step)
    ensures OneLoop(Next(s, step))
  {
    match step
    case StartLoop(t) => StartOneLoop(s, t);
    case Loop(t, _) => LoopOneLoop(s, t);
    case _ =>
  }

  lemma StartOneLoop(s: State, t: nat)
    requires OneLoop(s) && s.starting > 0
    ensures OneLoop(s.(starting := s.starting - 1, loops := s.loops[t := Take]))
  {
    assert s.loops.Keys == {};
    assert s.loops[t := Take].Keys == {t};
  }

  lemma LoopOneLoop(s: State, t: nat)
    requires OneLoop(s) && t in s.loops
    ensures OneLoop(LoopStep(s, t, Success))
  {
    OnlyLoop(s, t);
    var s' := LoopStep(s, t, Success);
    assert s'.loops.Keys == if s.loops[t].Take? && s.pending.None? then {} else {t};
  }

  lemma {:induction false} RunWorks(s: State, steps: seq<Step>, s': State)
    requires OneLoop(s) && Run(s, steps, s') && AllSmooth(steps)
    ensures |steps| + Work(s') <= Work(s)
    decreases |steps|
  {
    if steps != [] {
      SmoothOneLoop(s, steps[0]);
      SmoothWorks(s, steps[0]);
      RunWorks(Next(s, steps[0]), steps[1..], s');
    }
  }

  /** Until nothing is left to do, some smooth step can be taken; a loop boundary is needed only when
      nothing but the stash is left. */
  lemma SmoothStepExists(s: State) returns (step: Step)
    requires !Settled(s)
    ensures Enabled(s, step) && Smooth(step) && (step.LoopBoundary? ==> AtRest(s))
  {
    if !s.main.Idle? {
      step := Main(Success);
    } else if s.loops != map[] {
      var t :| t in s.loops;
      step := Loop(t, Success);
    } else if s.starting > 0 {
      step := StartLoop(0);
    } else if s.posted != multiset{} {
      var message :| message in s.posted;
      step := Deliver(message, false);
    } else {
      step := LoopBoundary;
    }
  }

  // ---- What every run guarantees ----

  lemma QueuedIsDirect(s: State, m: Manifest)
    requires Inv(s) && s.main.Idle? && (s.shown.None? || s.shown.value.identity != m.identity)
    ensures Direct(Next(s, Queue(m)), Candidate(s.generation + 1, m))
  {
    AllStale(s, LoopPoint(s.loops));
  }

  lemma RestIsActivated(s: State, c: Candidate, direct: bool)
    requires Way(s, c, direct) && AtRest(s) && (s.stash.None? || direct)
    ensures Activated(s, c)
  {
    assert s.pending.None?;
    assert LoopPoint(s.loops) == Take;
  }

  /** Whether a manifest differs from what is shown, so that it need not wait for a loop boundary. */
  predicate Differs(shown: Option<Manifest>, m: Manifest) {
    shown.None? || shown.value.identity != m.identity
  }

  lemma QueuedSettles(s: State, m: Manifest, steps: seq<Step>, s': State, direct: bool)
    requires Inv(s) && s.main.Idle? && ValidManifest(m) && (direct ==> Differs(s.shown, m))
    requires Run(Next(s, Queue(m)), steps, s') && AllSmooth(steps)
    requires AtRest(s') && (s'.stash.None? || direct)
    ensures Activated(s', Candidate(s.generation + 1, m))
  {
    var c := Candidate(s.generation + 1, m);
    StepInv(s, Queue(m));
    QueuedIsComing(s, m);
    if direct { QueuedIsDirect(s, m); }
    RunWay(Next(s, Queue(m)), c, direct, steps, s');
    RestIsActivated(s', c, direct);
  }

  /** A valid manifest that is queued becomes the active and the shown one in every run in which
      nothing fails, is blocked or is queued after it: at the latest when no loop, message, stash or
      step of the main thread is left, and without a loop boundary if it differs from what is shown. */
  lemma QueuedIsActivated(s0: State, before: seq<Step>, s: State, m: Manifest, steps: seq<Step>, s': State)
    requires Initial(s0) && Run(s0, before, s) && s.main.Idle? && ValidManifest(m)
    requires Run(Next(s, Queue(m)), steps, s') && AllSmooth(steps)
    requires AtRest(s') && (s'.stash.None? || Differs(s.shown, m))
    ensures s'.active == Some(m) && s'.shown == Some(m)
    ensures s'.activated != [] && s'.activated[|s'.activated| - 1] == Candidate(s.generation + 1, m)
  {
    InitialInv(s0);
    RunInv(s0, before, s);
    QueuedSettles(s, m, steps, s', Differs(s.shown, m));
  }

  /** Runs without failures are bounded, and from every reachable state one leads to rest. */
  lemma {:induction false} Settling(s: State) returns (steps: seq<Step>, s': State)
    requires OneLoop(s)
    ensures Run(s, steps, s') && AllSmooth(steps) && Settled(s') && |steps| <= Work(s)
    decreases Work(s)
  {
    if Settled(s) {
      steps, s' := [], s;
    } else {
      var step := SmoothStepExists(s);
      SmoothOneLoop(s, step);
      SmoothWorks(s, step);
      var rest;
      rest, s' := Settling(Next(s, step));
      steps := [step] + rest;
      assert steps[1..] == rest;
    }
  }

  /** So a queued manifest can always be activated, within the work that queueing it leaves. */
  lemma QueuedCanBeActivated(s0: State, before: seq<Step>, s: State, m: Manifest)
    returns (steps: seq<Step>, s': State)
    requires Initial(s0) && Run(s0, before, s) && s.main.Idle? && ValidManifest(m)
    ensures Run(Next(s, Queue(m)), steps, s') && AllSmooth(steps) && |steps| <= Work(Next(s, Queue(m)))
    ensures Settled(s') && s'.active == Some(m) && s'.shown == Some(m)
  {
    InitialInv(s0);
    RunInv(s0, before, s);
    StepInv(s, Queue(m));
    steps, s' := Settling(Next(s, Queue(m)));
    QueuedSettles(s, m, steps, s', false);
  }

  /** A step that hands a staged candidate to the main thread makes it active two steps later. */
  lemma HeldIsActivated(s: State, step: Step, s1: State, c: Candidate) returns (s': State)
    requires Enabled(s, step) && s1 == Next(s, step) && s1.main == Reading(c) && s1.staged == Some(c)
    ensures Run(s, [step, Main(Success), Main(Success)], s')
    ensures s'.active == Some(c.manifest) && s'.activated == s1.activated + [c]
  {
    var s2 := Next(s1, Main(Success));
    s' := Next(s2, Main(Success));
    var steps := [step, Main(Success), Main(Success)];
    assert steps[1..] == [Main(Success), Main(Success)] && steps[1..][1..] == [Main(Success)];
    assert Run(s', [], s');
    assert Run(s2, [Main(Success)], s');
    assert Run(s1, steps[1..], s');
  }

  lemma PostedIsStaged(s0: State, before: seq<Step>, s: State, c: Candidate)
    requires Initial(s0) && Run(s0, before, s) && c in s.posted && c.generation == s.generation
    ensures s.staged == Some(c)
  {
    InitialInv(s0);
    RunInv(s0, before, s);
    assert Sound(s.queued, s.generation, s.staged, LastActivated(s.activated), c);
  }

  /** A delivered manifest that is still current and differs from what is shown is activated at that
      delivery, and is not stashed. */
  lemma DeliveredIsActivated(s0: State, before: seq<Step>, s: State, c: Candidate) returns (s': State)
    requires Initial(s0) && Run(s0, before, s) && s.main.Idle? && c in s.posted && c.generation == s.generation
    requires Differs(s.shown, c.manifest)
    ensures Next(s, Deliver(c, false)).stash.None?
    ensures Run(s, [Deliver(c, false), Main(Success), Main(Success)], s')
    ensures s'.active == Some(c.manifest) && s'.activated == s.activated + [c]
  {
    PostedIsStaged(s0, before, s, c);
    s' := HeldIsActivated(s, Deliver(c, false), Next(s, Deliver(c, false)), c);
  }

  /** One that does not differ leaves what is active alone until the next loop boundary, which
      activates it. */
  lemma StashedIsActivated(s0: State, before: seq<Step>, s: State, c: Candidate, s1: State) returns (s': State)
    requires Initial(s0) && Run(s0, before, s) && s.main.Idle? && c in s.posted && c.generation == s.generation
    requires !Differs(s.shown, c.manifest) && s1 == Next(s, Deliver(c, false))
    ensures s1.main.Idle? && s1.active == s.active && s1.activated == s.activated
    ensures Run(s1, [LoopBoundary, Main(Success), Main(Success)], s')
    ensures s'.active == Some(c.manifest) && s'.activated == s.activated + [c]
  {
    PostedIsStaged(s0, before, s, c);
    s' := HeldIsActivated(s1, LoopBoundary, Next(s1, LoopBoundary), c);
  }

  /** What is active is what was activated last, in every run of one process. */
  lemma {:induction false} ActiveIsLastActivated(s0: State, steps: seq<Step>, s: State)
    requires Run(s0, steps, s) && Restart !in steps
    ensures s0.activated <= s.activated
    ensures s.active == if s.activated == s0.activated then s0.active
                        else Some(s.activated[|s.activated| - 1].manifest)
    decreases |steps|
  {
    if steps != [] {
      var s1 := Next(s0, steps[0]);
      ActivationStep(s0, steps[0]);
      assert Restart !in steps[1..];
      ActiveIsLastActivated(s1, steps[1..], s);
    }
  }

  lemma ActivationStep(s: State, step: Step)
    requires Enabled(s, step) && !step.Restart?
    ensures var s' := Next(s, step);
            || (s'.activated == s.activated && s'.active == s.active)
            || exists c :: s'.activated == s.activated + [c] && s'.active == Some(c.manifest)
  {
    if step.Main? && s.main.Writing? && step.outcome.Success? {
      assert Next(s, step).activated == s.activated + [s.main.candidate];
    }
  }

  /** Only the main thread changes what is active: process deaths, like everything else, leave it, and after each
      the new process shows it, with the media files as they were. */
  lemma {:induction false} ActiveSurvivesRestarts(s: State, steps: seq<Step>, s': State)
    requires Run(s, steps, s') && forall i :: 0 <= i < |steps| ==> !steps[i].Main?
    ensures s'.active == s.active
    ensures steps != [] && steps[|steps| - 1].Restart? ==> s'.shown == s.active && s'.main.Idle?
    ensures (forall i :: 0 <= i < |steps| ==> steps[i].Restart?) ==> s'.media == s.media
    decreases |steps|
  {
    if steps != [] {
      if !steps[0].Restart? { ActivationStep(s, steps[0]); }
      ActiveSurvivesRestarts(Next(s, steps[0]), steps[1..], s');
    }
  }

  /** After an invalidation nothing becomes active until something is queued again. */
  lemma {:induction false} InvalidatedIsNeverActivated(s0: State, steps: seq<Step>, s: State)
    requires Inv(s0) && s0.generation !in s0.queued && Run(s0, steps, s)
    requires forall i :: 0 <= i < |steps| ==> !steps[i].Queue? && !steps[i].Restart?
    ensures s.activated == s0.activated && s.active == s0.active
    decreases |steps|
  {
    if steps != [] {
      var s1 := Next(s0, steps[0]);
      StepInv(s0, steps[0]);
      UnqueuedStep(s0, steps[0], s1);
      InvalidatedIsNeverActivated(s1, steps[1..], s);
    }
  }

  lemma UnqueuedStep(s: State, step: Step, s': State)
    requires Inv(s) && s.generation !in s.queued && Enabled(s, step) && !step.Queue? && !step.Restart?
    requires s' == Next(s, step)
    ensures s'.generation !in s'.queued && s'.activated == s.activated && s'.active == s.active
  {
    ActivationStep(s, step);
    if s.main.Writing? { WritesTheLatest(s); }
  }

  /** An invalidation therefore stops every candidate that was queued before it. */
  lemma InvalidationStops(s0: State, before: seq<Step>, s: State, steps: seq<Step>, s': State)
    requires Initial(s0) && Run(s0, before, s) && s.main.Idle? && Run(Next(s, Invalidate), steps, s')
    requires forall i :: 0 <= i < |steps| ==> !steps[i].Queue? && !steps[i].Restart?
    ensures s'.activated == s.activated && s'.active == s.active
  {
    InitialInv(s0);
    RunInv(s0, before, s);
    StepInv(s, Invalidate);
    InvalidatedIsNeverActivated(Next(s, Invalidate), steps, s');
  }
}
