/** Every run of the play loop with crashes: no started playback is lost or counted twice, and every
    batch covers its manifest. */
module PlaybackRuns {
  import opened Options
  import opened Evidence
  import opened LoopBatch
  import opened PlaybackEvidence

  /** As history, `begun` maps the result id of each playback whose checkpoint was written to that checkpoint,
      `recorded` what was observed of each playback whose result was stored, and `used` every UUID drawn so
      far. */
  datatype State = State(pl: Player, begun: map<nat, Checkpoint>, recorded: set<Observation>, used: set<nat>)

  datatype Step =
    | Begin(id: nat, startedAt: int)
    | StoreResult(ending: Ending)
    | ClearCheckpoint
    | FinishLoop(input: BatchInput)
    | Activate(m: Manifest)
    | Crash
    | Restart(r: RecoveryInput)

  predicate FreshInput(used: set<nat>, active: Option<Manifest>, input: BatchInput) {
    && (active.Some? ==> |input.newIds| >= |active.value.entries|)
    && Distinct(input.newIds) && input.batchId !in used && input.batchId !in input.newIds
    && forall k :: 0 <= k < |input.newIds| ==> input.newIds[k] !in used
  }

  function UsedBy(input: BatchInput): set<nat> {
    {input.batchId} + set k | 0 <= k < |input.newIds| :: input.newIds[k]
  }

  predicate Enabled(s: State, step: Step) {
    match step
    case Begin(id, _) => CanBegin(s.pl) && id !in s.used
    case StoreResult(_) => IsPlaying(s.pl)
    case ClearCheckpoint => IsRecorded(s.pl)
    case FinishLoop(input) => AtBoundary(s.pl) && FreshInput(s.used, s.pl.d.active, input)
    case Activate(m) => CanActivate(s.pl) && Distinct(m.entries)
    case Crash => true
    case Restart(r) => s.pl.p.Down? && FreshInput(s.used, s.pl.d.active, r.batch)
  }

  function Next(s: State, step: Step): State
    requires Enabled(s, step)
  {
    match step
    case Begin(id, startedAt) =>
      s.(pl := Begun(s.pl, id, startedAt),
         begun := s.begun[id := NewCheckpoint(s.pl, id, startedAt)],
         used := s.used + {id})
    case StoreResult(ending) =>
      s.(pl := ResultStored(s.pl, ending), recorded := s.recorded + {Observation(s.pl.p.phase.current, ending)})
    case ClearCheckpoint => s.(pl := CheckpointCleared(s.pl))
    case FinishLoop(input) => s.(pl := LoopFinished(s.pl, input), used := s.used + UsedBy(input))
    case Activate(m) => s.(pl := Activated(s.pl, m))
    case Crash => s.(pl := Player(s.pl.d, Down))
    case Restart(r) => s.(pl := Recovered(s.pl.d, r), used := s.used + UsedBy(r.batch))
  }

  ghost predicate Initial(s: State) {
    s == State(Player(Durable(None, None, None, [], []), Down), map[], {}, {})
  }

  ghost predicate Run(s: State, steps: seq<Step>, s': State)
    decreases |steps|
  {
    if steps == [] then s == s'
    else Enabled(s, steps[0]) && Run(Next(s, steps[0]), steps[1..], s')
  }

  // ---- Where result ids can be ----

  /** The event ids of all batches ever inserted, in order. */
  ghost function InsertedIds(inserted: seq<Inserted>): seq<nat> {
    if inserted == [] then []
    else InsertedIds(inserted[..|inserted| - 1]) + Ids(inserted[|inserted| - 1].batch.events)
  }

  /** The ids that some checkpoint-loss event covers. */
  ghost function LostIds(losses: seq<set<nat>>): set<nat> {
    if losses == [] then {} else LostIds(losses[..|losses| - 1]) + losses[|losses| - 1]
  }

  lemma InsertedIdsExtend(inserted: seq<Inserted>, i: Inserted)
    ensures InsertedIds(inserted + [i]) == InsertedIds(inserted) + Ids(i.batch.events)
  {
    assert (inserted + [i])[..|inserted|] == inserted;
  }

  lemma LostIdsExtend(losses: seq<set<nat>>, loss: set<nat>)
    ensures LostIds(losses + [loss]) == LostIds(losses) + loss
  {
    assert (losses + [loss])[..|losses|] == losses;
  }

  // ---- The invariant of the durable part, on the three places of ids ----

  /** `durable`, `events` and `lost` hold each begun id in exactly one place. */
  ghost predicate Accounted(durable: set<nat>, events: seq<nat>, lost: set<nat>, begun: set<nat>, used: set<nat>) {
    && Distinct(events)
    && durable !! lost
    && (forall x :: x in events ==> x in used && x !in durable && x !in lost)
    && durable <= used && lost <= used && begun <= used
    && (forall x :: x in begun ==> x in durable || x in lost || x in events)
  }

  ghost predicate PlacesSound(s: State) {
    Accounted(DurableIds(s.pl.d), InsertedIds(s.pl.d.inserted), LostIds(s.pl.d.losses), s.begun.Keys, s.used)
  }

  /** The stored results have distinct ids, and a checkpoint whose result is stored is for the same item. */
  ghost predicate StoredSound(d: Durable) {
    var results := Stored(d.results);
    && Distinct(Ids(results))
    && (d.checkpoint.Some? ==>
          forall k :: 0 <= k < |results| && results[k].id == d.checkpoint.value.resultId ==>
            results[k].item == d.checkpoint.value.item)
  }

  /** Memory agrees with what is stored. */
  ghost predicate ProcessSound(pl: Player) {
    pl.p.Live? ==>
      && pl.p.loopResults == Stored(pl.d.results)
      && match pl.p.phase
         case Idle => pl.d.checkpoint.None?
         case Closing => pl.d.checkpoint.None?
         case Playing(c) =>
           && pl.d.checkpoint == Some(c)
           && forall k :: 0 <= k < |pl.p.loopResults| ==> pl.p.loopResults[k].id != c.resultId
         case Recorded(_) =>
           && pl.d.checkpoint.Some? && |pl.p.loopResults| > 0
           && pl.p.loopResults[|pl.p.loopResults| - 1].id == pl.d.checkpoint.value.resultId
  }

  ghost predicate Inv(s: State) {
    PlacesSound(s) && StoredSound(s.pl.d) && ProcessSound(s.pl)
  }

  // ---- Moving ids between places ----

  /** The durable ids become the ids of the events of one new batch, together with new ones. */
  lemma BatchMoves(durable: set<nat>, events: seq<nat>, lost: set<nat>, begun: set<nat>, used: set<nat>,
                   own: seq<nat>, fill: seq<nat>, newIds: set<nat>)
    requires Accounted(durable, events, lost, begun, used)
    requires Distinct(own) && Distinct(fill) && newIds !! used
    requires (forall x :: x in own <==> x in durable) && (forall x :: x in fill ==> x in newIds)
    ensures Accounted({}, events + (own + fill), lost, begun, used + newIds)
  {
    var all := events + (own + fill);
    forall i, j | 0 <= i < j < |all| ensures all[i] != all[j] {
      assert i < |events| ==> all[i] == events[i] && all[i] in events;
      assert |events| <= i < |events| + |own| ==> all[i] == own[i - |events|] && all[i] in own;
      assert |events| + |own| <= i ==> all[i] == fill[i - |events| - |own|];
      assert |events| <= j < |events| + |own| ==> all[j] == own[j - |events|] && all[j] in own;
      assert |events| + |own| <= j ==> all[j] == fill[j - |events| - |own|] && all[j] in fill;
    }
    assert forall x :: x in all <==> x in events || x in own || x in fill;
  }

  lemma LossMoves(durable: set<nat>, events: seq<nat>, lost: set<nat>, begun: set<nat>, used: set<nat>)
    requires Accounted(durable, events, lost, begun, used)
    ensures Accounted({}, events, lost + durable, begun, used)
  {}

  lemma LoopEventIds(m: Manifest, results: seq<Event>, input: BatchInput)
    requires |input.newIds| >= |m.entries| && Distinct(input.newIds)
    ensures exists fill :: Ids(LoopEvents(m, results, input.newIds, input.now)) == Ids(results) + fill
                           && Distinct(fill) && forall x :: x in fill ==> x in UsedBy(input)
  {
    var fill := Ids(Fillers(m.entries, RecordedItems(results), input.newIds, input.now));
    FillerIdsAreNew(m.entries, RecordedItems(results), input.newIds, input.now);
    assert Ids(LoopEvents(m, results, input.newIds, input.now)) == Ids(results) + fill;
    assert forall x :: x in fill ==> x in UsedBy(input);
  }

  lemma EnqueueKeeps(s: State, m: Manifest, results: seq<Event>, input: BatchInput, s': State)
    requires PlacesSound(s) && FreshInput(s.used, Some(m), input)
    requires Distinct(Ids(results)) && forall x :: x in Ids(results) <==> x in DurableIds(s.pl.d)
    requires s'.pl.d == Enqueued(s.pl.d, m, results, input) && s'.begun == s.begun && s'.used == s.used + UsedBy(input)
    ensures PlacesSound(s') && DurableIds(s'.pl.d) == {}
  {
    LoopEventIds(m, results, input);
    var fill :| Ids(LoopEvents(m, results, input.newIds, input.now)) == Ids(results) + fill
                && Distinct(fill) && forall x :: x in fill ==> x in UsedBy(input);
    var d := s.pl.d;
    InsertedIdsExtend(d.inserted, Inserted(BuiltBatch(m, results, input), m));
    BatchMoves(DurableIds(d), InsertedIds(d.inserted), LostIds(d.losses), s.begun.Keys, s.used,
               Ids(results), fill, UsedBy(input));
    assert DurableIds(s'.pl.d) == {};
  }

  lemma ClearKeeps(s: State, d: Durable, used: set<nat>)
    requires PlacesSound(s) && s.used <= used
    requires d.checkpoint.None? && d.results.None? && d.inserted == s.pl.d.inserted
    requires d.losses == s.pl.d.losses + [DurableIds(s.pl.d)] || (d.losses == s.pl.d.losses && DurableIds(s.pl.d) == {})
    ensures Accounted(DurableIds(d), InsertedIds(d.inserted), LostIds(d.losses), s.begun.Keys, used)
    ensures DurableIds(d) == {}
  {
    LossMoves(DurableIds(s.pl.d), InsertedIds(s.pl.d.inserted), LostIds(s.pl.d.losses), s.begun.Keys, s.used);
    LostIdsExtend(s.pl.d.losses, DurableIds(s.pl.d));
    assert DurableIds(d) == {};
  }

  /** What recovery puts into its batch is exactly what the crash left. */
  lemma RecoveredIds(d: Durable, r: RecoveryInput)
    requires StoredSound(d) && Recoverable(d)
    ensures var ids := Ids(RecoveredResults(d, r)); Distinct(ids) && forall x :: x in ids <==> x in DurableIds(d)
  {
    var results := Stored(d.results);
    var ids := Ids(RecoveredResults(d, r));
    assert forall k :: 0 <= k < |results| ==> ids[k] == results[k].id && Items(results)[k] == results[k].item;
    if d.checkpoint.Some? {
      var c := d.checkpoint.value;
      if c.item in Items(results) {
        var k :| 0 <= k < |results| && Items(results)[k] == c.item;
        assert results[k].id == c.resultId && ids[k] == c.resultId;
      } else {
        assert ids[|results|] == c.resultId;
      }
    }
  }

  lemma RestartKeeps(s: State, r: RecoveryInput, s': State)
    requires Inv(s) && Enabled(s, Restart(r)) && s' == Next(s, Restart(r))
    ensures Inv(s') && (DurableIds(s'.pl.d) == {} || r.outcome.ThrowsBeforeCommit?)
  {
    var d := s.pl.d;
    if d.checkpoint.None? && d.results.None? {
    } else if !r.readable || !Recoverable(d) {
      ClearKeeps(s, LossRecorded(d), s'.used);
    } else if d.checkpoint.None? && Stored(d.results) == [] {
      ClearKeeps(s, Cleared(d), s'.used);
    } else if !r.outcome.ThrowsBeforeCommit? {
      RecoveredIds(d, r);
      EnqueueKeeps(s, d.active.value, RecoveredResults(d, r), r.batch, s');
    }
  }

  lemma FinishKeeps(s: State, input: BatchInput, s': State)
    requires Inv(s) && Enabled(s, FinishLoop(input)) && s' == Next(s, FinishLoop(input))
    ensures Inv(s')
  {
    var results := s.pl.p.loopResults;
    assert forall x :: x in Ids(results) <==> x in DurableIds(s.pl.d);
    if results == [] {
      ClearKeeps(s, Cleared(s.pl.d), s'.used);
    } else {
      EnqueueKeeps(s, s.pl.d.active.value, results, input, s');
    }
  }

  lemma BeginKeeps(s: State, id: nat, startedAt: int, s': State)
    requires Inv(s) && Enabled(s, Begin(id, startedAt)) && s' == Next(s, Begin(id, startedAt))
    ensures Inv(s')
  {
    assert DurableIds(s'.pl.d) == DurableIds(s.pl.d) + {id};
    assert forall k :: 0 <= k < |s.pl.p.loopResults| ==> s.pl.p.loopResults[k].id in DurableIds(s.pl.d);
  }

  lemma StoreKeeps(s: State, ending: Ending, s': State)
    requires Inv(s) && Enabled(s, StoreResult(ending)) && s' == Next(s, StoreResult(ending))
    ensures Inv(s')
  {
    var before, after := Stored(s.pl.d.results), Stored(s'.pl.d.results);
    assert after == before + [ResultOf(s.pl.p.phase.current, ending)];
    assert forall k :: 0 <= k < |before| ==> after[k] == before[k];
    assert DurableIds(s'.pl.d) == DurableIds(s.pl.d);
  }

  lemma ClearCheckpointKeeps(s: State, s': State)
    requires Inv(s) && Enabled(s, ClearCheckpoint) && s' == Next(s, ClearCheckpoint)
    ensures Inv(s')
  {
    assert DurableIds(s'.pl.d) == DurableIds(s.pl.d);
  }

  lemma StepInv(s: State, step: Step)
    requires Inv(s) && Enabled(s, step)
    ensures Inv(Next(s, step))
  {
    var s' := Next(s, step);
    match step
    case Begin(id, startedAt) => BeginKeeps(s, id, startedAt, s');
    case StoreResult(ending) => StoreKeeps(s, ending, s');
    case ClearCheckpoint => ClearCheckpointKeeps(s, s');
    case FinishLoop(input) => FinishKeeps(s, input, s');
    case Restart(r) => RestartKeeps(s, r, s');
    case Activate(_) => assert DurableIds(s'.pl.d) == DurableIds(s.pl.d);
    case Crash =>
  }

  lemma {:induction false} RunInv(s: State, steps: seq<Step>, s': State)
    requires Inv(s) && Run(s, steps, s')
    ensures Inv(s')
    decreases |steps|
  {
    if steps != [] {
      StepInv(s, steps[0]);
      RunInv(Next(s, steps[0]), steps[1..], s');
    }
  }

  // ---- Exactly once ----

  /** The number of places that account for a result id: batch events, loss events, stored state. */
  ghost function Places(d: Durable, id: nat): nat {
    multiset(InsertedIds(d.inserted))[id]
    + (if id in LostIds(d.losses) then 1 else 0)
    + (if id in DurableIds(d) then 1 else 0)
  }

  lemma AccountedOnce(s: State, id: nat)
    requires PlacesSound(s) && id in s.begun
    ensures Places(s.pl.d, id) == 1
  {
    CountInDistinct(InsertedIds(s.pl.d.inserted), id);
  }

  /** After any run, with crashes anywhere, every playback whose checkpoint was written is in exactly one
      place: still stored, one event of one inserted batch, or covered by a loss event. */
  lemma ExactlyOnce(s0: State, steps: seq<Step>, s: State, id: nat)
    requires Initial(s0) && Run(s0, steps, s) && id in s.begun
    ensures Places(s.pl.d, id) == 1
  {
    assert DurableIds(s0.pl.d) == {};
    RunInv(s0, steps, s);
    AccountedOnce(s, id);
  }

  /** Once a start's recovery has not failed before its commit, nothing is left behind: every playback
      begun before is in exactly one batch event or covered by a loss event. */
  lemma RecoverySettles(s0: State, steps: seq<Step>, s: State, r: RecoveryInput, id: nat)
    requires Initial(s0) && Run(s0, steps, s) && Enabled(s, Restart(r)) && id in s.begun
    requires !r.outcome.ThrowsBeforeCommit?
    ensures var d := Next(s, Restart(r)).pl.d;
            multiset(InsertedIds(d.inserted))[id] + (if id in LostIds(d.losses) then 1 else 0) == 1
  {
    assert DurableIds(s0.pl.d) == {};
    RunInv(s0, steps, s);
    RestartKeeps(s, r, Next(s, Restart(r)));
    AccountedOnce(Next(s, Restart(r)), id);
  }

  // ---- What the events say ----

  /** All events of all batches ever inserted. */
  ghost predicate InSomeBatch(inserted: seq<Inserted>, e: Event) {
    exists k :: 0 <= k < |inserted| && e in inserted[k].batch.events
  }

  /** A playback that began and whose process died: interrupted, with the item and start of its checkpoint. */
  ghost predicate IsInterruption(begun: map<nat, Checkpoint>, e: Event) {
    && e.id in begun && e.item == begun[e.id].item && e.startedAt == begun[e.id].startedAt
    && e.status.Interrupted?
  }

  /** An entry the loop never reached: an interruption of no duration under an id of its own. */
  ghost predicate IsFiller(begun: map<nat, Checkpoint>, used: set<nat>, e: Event) {
    && e.id in used && e.id !in begun
    && e.status.Interrupted? && e.durationMs == 0 && e.endedAt == Some(e.startedAt)
    && e.failureReason == LOOP_INTERRUPTED
  }

  /** The event reports, field by field, what the loop observed of some playback. */
  ghost predicate IsReport(recorded: set<Observation>, e: Event) {
    exists o :: o in recorded && Reports(e, o)
  }

  ghost predicate IsTrue(s: State, e: Event) {
    IsReport(s.recorded, e) || IsInterruption(s.begun, e) || IsFiller(s.begun, s.used, e)
  }

  /** What was observed was observed of playbacks that began. */
  ghost predicate ObservedBegan(recorded: set<Observation>, begun: map<nat, Checkpoint>) {
    forall o :: o in recorded ==> o.checkpoint.resultId in begun && begun[o.checkpoint.resultId] == o.checkpoint
  }

  ghost predicate Truthful(s: State) {
    && ObservedBegan(s.recorded, s.begun)
    && (forall e :: InSomeBatch(s.pl.d.inserted, e) ==> IsTrue(s, e))
    && (forall e :: e in Stored(s.pl.d.results) ==> IsReport(s.recorded, e))
    && (s.pl.d.checkpoint.Some? ==>
          var c := s.pl.d.checkpoint.value; c.resultId in s.begun && s.begun[c.resultId] == c)
    && (s.pl.p.Live? ==> forall e :: e in s.pl.p.loopResults ==> IsReport(s.recorded, e))
    && s.begun.Keys <= s.used
  }

  /** A stored result is still stored as it was, in a batch as it was, or covered by a loss event. */
  ghost predicate Kept(d: Durable, e: Event) {
    e in Stored(d.results) || InSomeBatch(d.inserted, e) || e.id in LostIds(d.losses)
  }

  ghost predicate RecordedKept(s: State) {
    forall o, e :: o in s.recorded && Reports(e, o) ==> Kept(s.pl.d, e)
  }

  lemma {:induction false} FillersAreFillers(
    entries: seq<nat>, recorded: set<nat>, newIds: seq<nat>, now: int, e: Event)
    requires |newIds| >= |entries| && e in Fillers(entries, recorded, newIds, now)
    ensures e.id in newIds && e.status.Interrupted? && e.durationMs == 0 && e.endedAt == Some(e.startedAt)
    ensures e.failureReason == LOOP_INTERRUPTED
  {
    if entries != [] && e in Fillers(entries[..|entries| - 1], recorded, newIds, now) {
      FillersAreFillers(entries[..|entries| - 1], recorded, newIds, now, e);
    }
  }

  lemma BatchIsTrue(s: State, m: Manifest, results: seq<Event>, input: BatchInput, s': State)
    requires Truthful(s) && FreshInput(s.used, Some(m), input)
    requires forall e :: e in results ==> IsReport(s.recorded, e) || IsInterruption(s.begun, e)
    requires s'.pl.d == Enqueued(s.pl.d, m, results, input)
    requires s'.begun == s.begun && s'.recorded == s.recorded && s'.used == s.used + UsedBy(input)
    ensures forall e :: InSomeBatch(s'.pl.d.inserted, e) ==> IsTrue(s', e)
    ensures forall e :: e in results ==> InSomeBatch(s'.pl.d.inserted, e)
    ensures forall e :: InSomeBatch(s.pl.d.inserted, e) ==> InSomeBatch(s'.pl.d.inserted, e)
  {
    var before, after := s.pl.d.inserted, s'.pl.d.inserted;
    var events := LoopEvents(m, results, input.newIds, input.now);
    assert after[|before|].batch.events == events;
    forall e | InSomeBatch(after, e) ensures IsTrue(s', e) {
      var k :| 0 <= k < |after| && e in after[k].batch.events;
      if k < |before| {
        assert InSomeBatch(before, e) && IsTrue(s, e);
      } else if e !in results {
        FillersAreFillers(m.entries, RecordedItems(results), input.newIds, input.now, e);
        assert e.id in UsedBy(input);
      }
    }
    forall e | InSomeBatch(before, e) ensures InSomeBatch(after, e) {
      var k :| 0 <= k < |before| && e in before[k].batch.events;
      assert e in after[k].batch.events;
    }
  }

  lemma RecoveredResultsAreTrue(s: State, r: RecoveryInput)
    requires Truthful(s)
    ensures forall e :: e in Stored(s.pl.d.results) ==> e in RecoveredResults(s.pl.d, r)
    ensures forall e :: e in RecoveredResults(s.pl.d, r) ==> IsReport(s.recorded, e) || IsInterruption(s.begun, e)
  {}

  lemma RestartTrue(s: State, r: RecoveryInput, s': State)
    requires Truthful(s) && RecordedKept(s) && Enabled(s, Restart(r)) && s' == Next(s, Restart(r))
    ensures Truthful(s') && RecordedKept(s')
  {
    if |s'.pl.d.inserted| > |s.pl.d.inserted| {
      RecoveredResultsAreTrue(s, r);
      BatchIsTrue(s, s.pl.d.active.value, RecoveredResults(s.pl.d, r), r.batch, s');
    } else {
      NoBatchTrue(s, s');
    }
  }

  /** What leaves the store without a batch is covered by a loss. */
  lemma NoBatchTrue(s: State, s': State)
    requires Truthful(s) && RecordedKept(s)
    requires s'.begun == s.begun && s'.recorded == s.recorded && s.used <= s'.used
    requires s'.pl.d.inserted == s.pl.d.inserted && (s'.pl.p.Live? ==> s'.pl.p.loopResults == [])
    requires || s'.pl.d == s.pl.d || s'.pl.d == LossRecorded(s.pl.d)
             || (s'.pl.d == Cleared(s.pl.d) && Stored(s.pl.d.results) == [])
    ensures Truthful(s') && RecordedKept(s')
  {
    var d := s.pl.d;
    LostIdsExtend(d.losses, DurableIds(d));
    forall e | e in Stored(d.results) ensures e.id in DurableIds(d) {
      var k :| 0 <= k < |Stored(d.results)| && Stored(d.results)[k] == e;
    }
  }

  lemma FinishTrue(s: State, input: BatchInput, s': State)
    requires Inv(s) && Truthful(s) && RecordedKept(s)
    requires Enabled(s, FinishLoop(input)) && s' == Next(s, FinishLoop(input))
    ensures Truthful(s') && RecordedKept(s')
  {
    if s.pl.p.loopResults != [] {
      BatchIsTrue(s, s.pl.d.active.value, s.pl.p.loopResults, input, s');
    }
  }

  lemma StepTrue(s: State, step: Step)
    requires Inv(s) && Truthful(s) && RecordedKept(s) && Enabled(s, step)
    ensures Truthful(Next(s, step)) && RecordedKept(Next(s, step))
  {
    var s' := Next(s, step);
    match step
    case FinishLoop(input) => FinishTrue(s, input, s');
    case Restart(r) => RestartTrue(s, r, s');
    case StoreResult(ending) => StoreTrue(s, ending, s');
    case _ =>
  }

  lemma StoreTrue(s: State, ending: Ending, s': State)
    requires Truthful(s) && RecordedKept(s) && Enabled(s, StoreResult(ending)) && ProcessSound(s.pl)
    requires s' == Next(s, StoreResult(ending))
    ensures Truthful(s') && RecordedKept(s')
  {
    var o := Observation(s.pl.p.phase.current, ending);
    var stored := s'.pl.p.loopResults[|s.pl.p.loopResults|];
    assert Reports(stored, o);
    forall e | IsReport(s.recorded, e) ensures IsReport(s'.recorded, e) {
      var before :| before in s.recorded && Reports(e, before);
      assert before in s'.recorded;
    }
    forall p, e | p in s'.recorded && Reports(e, p) ensures Kept(s'.pl.d, e) {
      if p in s.recorded {
        assert Kept(s.pl.d, e);
        assert e in Stored(s.pl.d.results) ==> e in Stored(s'.pl.d.results);
      } else {
        assert e == stored;
      }
    }
  }

  lemma {:induction false} RunTrue(s: State, steps: seq<Step>, s': State)
    requires Inv(s) && Truthful(s) && RecordedKept(s) && Run(s, steps, s')
    ensures Truthful(s') && RecordedKept(s')
    decreases |steps|
  {
    if steps != [] {
      StepInv(s, steps[0]);
      StepTrue(s, steps[0]);
      RunTrue(Next(s, steps[0]), steps[1..], s');
    }
  }

  /** No evidence is made up: an event of any batch reports what the loop observed of a playback, with
      exactly the observed status, reason, duration and times; or the interruption of a playback that began,
      with its item and start; or is an empty interruption of an entry never reached. So behind every
      completed event is a playback that completed, and behind every failed one a playback that failed. */
  lemma NoFabricatedEvidence(s0: State, steps: seq<Step>, s: State, k: nat, e: Event)
    requires Initial(s0) && Run(s0, steps, s) && k < |s.pl.d.inserted| && e in s.pl.d.inserted[k].batch.events
    ensures IsTrue(s, e) && ObservedBegan(s.recorded, s.begun)
    ensures !e.status.Interrupted? ==> exists o :: o in s.recorded && Reports(e, o) && o.ending.status == e.status
  {
    assert DurableIds(s0.pl.d) == {};
    RunTrue(s0, steps, s);
    assert InSomeBatch(s.pl.d.inserted, e);
  }

  /** No result changes: the report of what the loop observed is stored still, in a batch as it was, or
      covered by a loss. */
  lemma RecordedResultsSurvive(s0: State, steps: seq<Step>, s: State, o: Observation, e: Event)
    requires Initial(s0) && Run(s0, steps, s) && o in s.recorded && Reports(e, o)
    ensures Kept(s.pl.d, e)
  {
    assert DurableIds(s0.pl.d) == {};
    RunTrue(s0, steps, s);
  }

  // ---- Batch coverage ----

  /** The batch passes the server's checks of ids and entries against its manifest. */
  ghost predicate Covers(i: Inserted) {
    OnePerEntry(Members(i.manifest.entries), i.batch.events)
  }

  /** A recovered batch always covers its manifest, whatever the crash left. */
  lemma RecoveredBatchCovers(d: Durable, r: RecoveryInput)
    requires StoredSound(d) && Recoverable(d) && Distinct(d.active.value.entries)
    requires |r.batch.newIds| >= |d.active.value.entries| && Distinct(r.batch.newIds)
    requires forall x :: x in r.batch.newIds ==> x !in DurableIds(d)
    ensures Covers(Inserted(BuiltBatch(d.active.value, RecoveredResults(d, r), r.batch), d.active.value))
  {
    var m := d.active.value;
    var results := RecoveredResults(d, r);
    var stored := Stored(d.results);
    RecoveredIds(d, r);
    if d.checkpoint.Some? && d.checkpoint.value.item !in Items(stored) {
      assert Items(results) == Items(stored) + [d.checkpoint.value.item];
    }
    BatchCoversManifest(m, results, r.batch.newIds, r.batch.now);
  }

  /** A live batch covers its manifest exactly if the results in memory fit the manifest. */
  lemma LiveBatchCovers(pl: Player, input: BatchInput)
    requires AtBoundary(pl) && Distinct(pl.d.active.value.entries) && |input.newIds| >= |pl.d.active.value.entries|
    requires Distinct(Ids(pl.p.loopResults)) && NewFor(input.newIds, pl.p.loopResults)
    ensures Covers(Inserted(BuiltBatch(pl.d.active.value, pl.p.loopResults, input), pl.d.active.value))
            <==> ResultsFit(pl.d.active.value.entries, Items(pl.p.loopResults))
  {
    BatchCoversManifest(pl.d.active.value, pl.p.loopResults, input.newIds, input.now);
  }

  lemma NewIdsAreNew(s: State, input: BatchInput)
    requires Inv(s) && FreshInput(s.used, s.pl.d.active, input)
    ensures forall x :: x in input.newIds ==> x !in DurableIds(s.pl.d)
    ensures s.pl.p.Live? ==> Distinct(Ids(s.pl.p.loopResults)) && NewFor(input.newIds, s.pl.p.loopResults)
  {
    forall x | x in input.newIds ensures x !in s.used {
      var k :| 0 <= k < |input.newIds| && input.newIds[k] == x;
    }
    if s.pl.p.Live? {
      forall x | x in Ids(s.pl.p.loopResults) ensures x in DurableIds(s.pl.d) {
        var k :| 0 <= k < |s.pl.p.loopResults| && Ids(s.pl.p.loopResults)[k] == x;
      }
    }
  }

  /** The results in memory are the entries of the active manifest just before the current position. */
  ghost predicate Aligned(pl: Player) {
    pl.p.Live? ==>
      var results := pl.p.loopResults;
      var end := if pl.p.phase.Recorded? || pl.p.phase.Closing? then pl.p.index + 1 else pl.p.index;
      && (pl.p.phase.Playing? || pl.p.phase.Recorded? || pl.p.phase.Closing? ==>
            pl.d.active.Some? && pl.p.index < |pl.d.active.value.entries|)
      && (pl.p.phase.Playing? ==> pl.p.phase.current.item == pl.d.active.value.entries[pl.p.index])
      && |results| <= end
      && (results != [] ==> pl.d.active.Some? && end <= |pl.d.active.value.entries|)
      && forall k :: 0 <= k < |results| ==> results[k].item == pl.d.active.value.entries[end - |results| + k]
  }

  ghost predicate CoverInv(s: State) {
    && (s.pl.d.active.Some? ==> Distinct(s.pl.d.active.value.entries))
    && (forall i :: 0 <= i < |s.pl.d.inserted| ==> Covers(s.pl.d.inserted[i]))
    && Aligned(s.pl)
  }

  /** Every activation finds an empty loop: an item was current, so that its loop was closed first, or
      nothing was recorded yet. */
  ghost predicate GapFree(s: State, steps: seq<Step>)
    decreases |steps|
  {
    steps != [] && Enabled(s, steps[0]) ==>
      && (steps[0].Activate? && s.pl.p.Live? ==> s.pl.p.loopResults == [])
      && GapFree(Next(s, steps[0]), steps[1..])
  }

  lemma AlignedFits(pl: Player)
    requires Aligned(pl) && AtBoundary(pl) && Distinct(pl.d.active.value.entries)
    ensures ResultsFit(pl.d.active.value.entries, Items(pl.p.loopResults))
  {}

  lemma RestartCovers(s: State, r: RecoveryInput, s': State)
    requires Inv(s) && CoverInv(s) && Enabled(s, Restart(r)) && s' == Next(s, Restart(r))
    ensures CoverInv(s')
  {
    NewIdsAreNew(s, r.batch);
    RecoveredCovers(s.pl.d, r, s'.pl);
  }

  lemma RecoveredCovers(d: Durable, r: RecoveryInput, pl: Player)
    requires StoredSound(d) && (d.active.Some? ==> Distinct(d.active.value.entries))
    requires d.active.Some? ==> |r.batch.newIds| >= |d.active.value.entries|
    requires Distinct(r.batch.newIds) && forall x :: x in r.batch.newIds ==> x !in DurableIds(d)
    requires pl == Recovered(d, r) && forall i :: 0 <= i < |d.inserted| ==> Covers(d.inserted[i])
    ensures pl.d.active == d.active && (pl.p.Live? ==> pl.p.phase.Idle? && pl.p.loopResults == [])
    ensures forall i :: 0 <= i < |pl.d.inserted| ==> Covers(pl.d.inserted[i])
  {
    if Recoverable(d) {
      RecoveredBatchCovers(d, r);
    }
  }

  lemma FinishCovers(s: State, input: BatchInput, s': State)
    requires Inv(s) && CoverInv(s) && Enabled(s, FinishLoop(input)) && s' == Next(s, FinishLoop(input))
    ensures CoverInv(s')
  {
    NewIdsAreNew(s, input);
    AlignedFits(s.pl);
    LiveBatchCovers(s.pl, input);
  }

  lemma StepCovers(s: State, step: Step)
    requires Inv(s) && CoverInv(s) && Enabled(s, step)
    requires step.Activate? && s.pl.p.Live? ==> s.pl.p.loopResults == []
    ensures CoverInv(Next(s, step))
  {
    match step
    case Restart(r) => RestartCovers(s, r, Next(s, step));
    case FinishLoop(input) => FinishCovers(s, input, Next(s, step));
    case _ => AlignedStep(s, step);
  }

  lemma AlignedStep(s: State, step: Step)
    requires CoverInv(s) && Enabled(s, step) && !step.Restart? && !step.FinishLoop?
    requires step.Activate? && s.pl.p.Live? ==> s.pl.p.loopResults == []
    ensures CoverInv(Next(s, step))
  {}

  lemma {:induction false} RunCovers(s: State, steps: seq<Step>, s': State)
    requires Inv(s) && CoverInv(s) && Run(s, steps, s') && GapFree(s, steps)
    ensures CoverInv(s')
    decreases |steps|
  {
    if steps != [] {
      StepInv(s, steps[0]);
      StepCovers(s, steps[0]);
      RunCovers(Next(s, steps[0]), steps[1..], s');
    }
  }

  /** Over every run whose activations find an empty loop, each batch ever inserted, live or recovered, passes
      the server's checks of ids and entries against its manifest. */
  lemma EveryBatchCovers(s0: State, steps: seq<Step>, s: State, i: nat)
    requires Initial(s0) && Run(s0, steps, s) && GapFree(s0, steps) && i < |s.pl.d.inserted|
    ensures Covers(s.pl.d.inserted[i])
  {
    assert DurableIds(s0.pl.d) == {};
    RunCovers(s0, steps, s);
  }

  // ---- The gap: an activation between two items ----

  ghost predicate HoldsForeign(results: seq<Event>, entries: seq<nat>) {
    exists k :: 0 <= k < |results| && results[k].item !in entries
  }

  /** The loop holds a result of an entry that the active manifest does not have. */
  ghost predicate Stale(pl: Player) {
    pl.p.Live? && pl.d.active.Some? && HoldsForeign(pl.p.loopResults, pl.d.active.value.entries)
  }

  /** What a stale loop is after a crash: stored results that no recovery accepts. */
  ghost predicate StaleDown(pl: Player) {
    pl.p.Down? && pl.d.active.Some? && HoldsForeign(Stored(pl.d.results), pl.d.active.value.entries)
  }

  /** An activation between two items makes the loop stale exactly if some result is of an entry that the new
      manifest does not have. */
  lemma GapMakesStale(pl: Player, m: Manifest)
    requires CanActivate(pl) && pl.p.Live?
    ensures Stale(Activated(pl, m)) <==> HoldsForeign(pl.p.loopResults, m.entries)
  {}

  lemma ForeignDoesNotFit(results: seq<Event>, entries: seq<nat>)
    requires HoldsForeign(results, entries)
    ensures !ResultsFit(entries, Items(results)) && !ValidResults(results, entries)
  {
    var k :| 0 <= k < |results| && results[k].item !in entries;
    assert Items(results)[k] !in entries;
  }

  ghost predicate SameHistory(d: Durable, d': Durable) {
    d'.inserted == d.inserted && d'.losses == d.losses
  }

  /** A batch that does not cover its manifest was the next to be inserted, or a loss was recorded before. */
  ghost predicate StaleEnded(d: Durable, d': Durable) {
    || (|d'.inserted| > |d.inserted| && d.inserted <= d'.inserted && !Covers(d'.inserted[|d.inserted|]))
    || (|d'.losses| > |d.losses| && d.losses <= d'.losses && DurableIds(d) <= d'.losses[|d.losses|])
  }

  lemma StaleIdsStay(s: State, step: Step, s': State)
    requires Inv(s) && Enabled(s, step) && s' == Next(s, step)
    ensures step.Begin? || step.StoreResult? || step.ClearCheckpoint? || step.Crash? ==>
              DurableIds(s.pl.d) <= DurableIds(s'.pl.d)
  {
    var before, after := Stored(s.pl.d.results), Stored(s'.pl.d.results);
    if step.StoreResult? {
      assert forall k :: 0 <= k < |before| ==> after[k] == before[k];
      assert after[|before|].id == s.pl.p.phase.current.resultId;
    }
  }

  /** A step keeps a loop stale, through a crash too, until it ends in a batch the server refuses or in a loss
      event that covers its results. */
  lemma StaleStep(s: State, step: Step, s': State)
    requires Inv(s) && Enabled(s, step) && !step.Activate? && s' == Next(s, step)
    requires Stale(s.pl) || StaleDown(s.pl)
    requires Distinct(s.pl.d.active.value.entries)
    ensures s'.pl.d.active == s.pl.d.active
    ensures || ((Stale(s'.pl) || StaleDown(s'.pl)) && SameHistory(s.pl.d, s'.pl.d)
                && DurableIds(s.pl.d) <= DurableIds(s'.pl.d))
            || StaleEnded(s.pl.d, s'.pl.d)
  {
    StaleIdsStay(s, step, s');
    var entries := s.pl.d.active.value.entries;
    ForeignDoesNotFit(if s.pl.p.Live? then s.pl.p.loopResults else Stored(s.pl.d.results), entries);
    if step.FinishLoop? {
      NewIdsAreNew(s, step.input);
      LiveBatchCovers(s.pl, step.input);
    } else if step.StoreResult? {
      var k :| 0 <= k < |s.pl.p.loopResults| && s.pl.p.loopResults[k].item !in entries;
      assert s'.pl.p.loopResults[k] == s.pl.p.loopResults[k];
    }
  }

  lemma {:induction false} HistoryGrows(s: State, steps: seq<Step>, s': State)
    requires Run(s, steps, s')
    ensures s.pl.d.inserted <= s'.pl.d.inserted && s.pl.d.losses <= s'.pl.d.losses
    decreases |steps|
  {
    if steps != [] {
      HistoryGrows(Next(s, steps[0]), steps[1..], s');
    }
  }

  lemma {:induction false} StaleRun(s: State, steps: seq<Step>, s': State)
    requires Inv(s) && Run(s, steps, s') && forall k :: 0 <= k < |steps| ==> !steps[k].Activate?
    requires Stale(s.pl) || StaleDown(s.pl)
    requires Distinct(s.pl.d.active.value.entries)
    ensures || ((Stale(s'.pl) || StaleDown(s'.pl)) && SameHistory(s.pl.d, s'.pl.d)
                && DurableIds(s.pl.d) <= DurableIds(s'.pl.d))
            || StaleEnded(s.pl.d, s'.pl.d)
    decreases |steps|
  {
    if steps != [] {
      var s1 := Next(s, steps[0]);
      StaleStep(s, steps[0], s1);
      StepInv(s, steps[0]);
      if (Stale(s1.pl) || StaleDown(s1.pl)) && SameHistory(s.pl.d, s1.pl.d) {
        StaleRun(s1, steps[1..], s');
      } else {
        HistoryGrows(s1, steps[1..], s');
      }
    }
  }

  /** From every reachable state: an activation that leaves results of entries the new manifest does not have
      ends, if it ends, in a batch the server refuses or in a loss event that covers those results. */
  lemma GapIsRefused(s0: State, before: seq<Step>, s: State, m: Manifest, after: seq<Step>, s': State)
    requires Initial(s0) && Run(s0, before, s) && Enabled(s, Activate(m)) && s.pl.p.Live?
    requires HoldsForeign(s.pl.p.loopResults, m.entries)
    requires Run(Next(s, Activate(m)), after, s') && forall k :: 0 <= k < |after| ==> !after[k].Activate?
    ensures || ((Stale(s'.pl) || StaleDown(s'.pl)) && SameHistory(s.pl.d, s'.pl.d))
            || StaleEnded(s.pl.d, s'.pl.d)
  {
    assert DurableIds(s0.pl.d) == {};
    RunInv(s0, before, s);
    StepInv(s, Activate(m));
    GapMakesStale(s.pl, m);
    assert DurableIds(Next(s, Activate(m)).pl.d) == DurableIds(s.pl.d);
    StaleRun(Next(s, Activate(m)), after, s');
  }

  lemma {:induction false} ActiveIsDistinct(s: State, steps: seq<Step>, s': State)
    requires Run(s, steps, s') && (s.pl.d.active.Some? ==> Distinct(s.pl.d.active.value.entries))
    ensures s'.pl.d.active.Some? ==> Distinct(s'.pl.d.active.value.entries)
    decreases |steps|
  {
    if steps != [] {
      ActiveIsDistinct(Next(s, steps[0]), steps[1..], s');
    }
  }

  /** From every reachable state in which the loop is stale, in every run without another activation, with crashes
      anywhere: it either still is, or the first batch inserted since does not cover its manifest, or a loss
      event covers its results. */
  lemma StaleLoopIsRefused(s0: State, before: seq<Step>, s: State, steps: seq<Step>, s': State)
    requires Initial(s0) && Run(s0, before, s) && (Stale(s.pl) || StaleDown(s.pl))
    requires Run(s, steps, s') && forall k :: 0 <= k < |steps| ==> !steps[k].Activate?
    ensures || ((Stale(s'.pl) || StaleDown(s'.pl)) && SameHistory(s.pl.d, s'.pl.d))
            || StaleEnded(s.pl.d, s'.pl.d)
  {
    assert DurableIds(s0.pl.d) == {};
    RunInv(s0, before, s);
    ActiveIsDistinct(s0, before, s);
    StaleRun(s, steps, s');
  }
}
