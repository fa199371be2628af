/** What the runs of the play loop report and never lose: each observed ending is what is reported of its
    playback, an undisturbed run records no loss, and a full loop reports every entry as it ended. */
module PlaybackFidelity {
  import opened Options
  import opened Evidence
  import opened LoopBatch
  import opened PlaybackEvidence
  import opened PlaybackRuns

  // ---- One report for each observation ----

  lemma {:induction false} EventIdInserted(inserted: seq<Inserted>, k: nat, e: Event)
    requires k < |inserted| && e in inserted[k].batch.events
    ensures e.id in InsertedIds(inserted)
  {
    var last := |inserted| - 1;
    if k < last {
      EventIdInserted(inserted[..last], k, e);
    } else {
      var j :| 0 <= j < |inserted[k].batch.events| && inserted[k].batch.events[j] == e;
      assert Ids(inserted[k].batch.events)[j] == e.id;
    }
  }

  /** No id is used by two events of inserted batches. */
  lemma {:induction false} SameIdSameEvent(inserted: seq<Inserted>, j: nat, k: nat, e: Event, f: Event)
    requires Distinct(InsertedIds(inserted)) && e.id == f.id
    requires j < |inserted| && e in inserted[j].batch.events && k < |inserted| && f in inserted[k].batch.events
    ensures e == f
  {
    var last := |inserted| - 1;
    var before, ids := InsertedIds(inserted[..last]), Ids(inserted[last].batch.events);
    assert InsertedIds(inserted) == before + ids;
    assert forall i :: 0 <= i < |before| ==> InsertedIds(inserted)[i] == before[i];
    assert forall i :: 0 <= i < |ids| ==> InsertedIds(inserted)[|before| + i] == ids[i];
    if j < last && k < last {
      SameIdSameEvent(inserted[..last], j, k, e, f);
    } else if j < last {
      EventIdInserted(inserted[..last], j, e);
      NotInBoth(before, ids, f, inserted[last].batch.events);
    } else if k < last {
      EventIdInserted(inserted[..last], k, f);
      NotInBoth(before, ids, e, inserted[last].batch.events);
    } else {
      var a :| 0 <= a < |ids| && inserted[last].batch.events[a] == e;
      var b :| 0 <= b < |ids| && inserted[last].batch.events[b] == f;
      assert ids[a] == ids[b];
    }
  }

  lemma NotInBoth(before: seq<nat>, ids: seq<nat>, e: Event, events: seq<Event>)
    requires Distinct(before + ids) && ids == Ids(events) && e in events
    ensures e.id !in before
  {
    var b :| 0 <= b < |events| && events[b] == e;
    assert ids[b] == e.id;
    forall a | 0 <= a < |before| ensures before[a] != e.id {
      assert (before + ids)[a] == before[a] && (before + ids)[|before| + b] == ids[b];
    }
  }

  function ReportOf(o: Observation): (e: Event)
    ensures Reports(e, o)
  {
    Event(o.checkpoint.resultId, o.checkpoint.item, o.checkpoint.startedAt, Some(o.ending.endedAt),
          o.ending.durationMs, o.ending.status, o.ending.reason)
  }

  lemma StoredIdIsDurable(d: Durable, e: Event)
    requires e in Stored(d.results)
    ensures e.id in DurableIds(d)
  {
    var k :| 0 <= k < |Stored(d.results)| && Stored(d.results)[k] == e;
  }

  /** An observed ending is never replaced: the event that a batch has under the playback's id reports it. */
  lemma ObservedIsReported(s0: State, steps: seq<Step>, s: State, o: Observation, k: nat, e: Event)
    requires Initial(s0) && Run(s0, steps, s) && o in s.recorded
    requires k < |s.pl.d.inserted| && e in s.pl.d.inserted[k].batch.events && e.id == o.checkpoint.resultId
    ensures Reports(e, o)
  {
    assert DurableIds(s0.pl.d) == {};
    RunTrue(s0, steps, s);
    RunInv(s0, steps, s);
    var d, report := s.pl.d, ReportOf(o);
    assert Kept(d, report);
    EventIdInserted(d.inserted, k, e);
    if report in Stored(d.results) { StoredIdIsDurable(d, report); }
    var j :| 0 <= j < |d.inserted| && report in d.inserted[j].batch.events;
    SameIdSameEvent(d.inserted, j, k, report, e);
  }

  ghost predicate OneEndingEach(recorded: set<Observation>) {
    forall o, p :: o in recorded && p in recorded && o.checkpoint.resultId == p.checkpoint.resultId ==> o == p
  }

  lemma StoreIsFirst(s: State, o: Observation)
    requires Inv(s) && RecordedKept(s) && IsPlaying(s.pl) && o in s.recorded
    ensures o.checkpoint.resultId != s.pl.p.phase.current.resultId
  {
    var d, report := s.pl.d, ReportOf(o);
    assert Kept(d, report);
    assert s.pl.p.phase.current.resultId in DurableIds(d);
    if report in Stored(d.results) {
      var k :| 0 <= k < |Stored(d.results)| && Stored(d.results)[k] == report;
      assert s.pl.p.loopResults[k].id != s.pl.p.phase.current.resultId;
    } else if InSomeBatch(d.inserted, report) {
      var k :| 0 <= k < |d.inserted| && report in d.inserted[k].batch.events;
      EventIdInserted(d.inserted, k, report);
    }
  }

  lemma {:induction false} RunEndsOnce(s: State, steps: seq<Step>, s': State)
    requires Inv(s) && Truthful(s) && RecordedKept(s) && OneEndingEach(s.recorded) && Run(s, steps, s')
    ensures OneEndingEach(s'.recorded)
    decreases |steps|
  {
    if steps != [] {
      StepInv(s, steps[0]);
      StepTrue(s, steps[0]);
      if steps[0].StoreResult? {
        forall o | o in s.recorded ensures o.checkpoint.resultId != s.pl.p.phase.current.resultId {
          StoreIsFirst(s, o);
        }
      }
      RunEndsOnce(Next(s, steps[0]), steps[1..], s');
    }
  }

  /** No playback is observed to end twice, through crashes too. */
  lemma PlaybackEndsOnce(s0: State, steps: seq<Step>, s: State, o: Observation, p: Observation)
    requires Initial(s0) && Run(s0, steps, s) && o in s.recorded && p in s.recorded
    requires o.checkpoint.resultId == p.checkpoint.resultId
    ensures o == p
  {
    assert DurableIds(s0.pl.d) == {};
    RunEndsOnce(s0, steps, s);
  }

  // ---- Without disturbance nothing is lost ----

  ghost predicate NothingStored(d: Durable) {
    d.checkpoint.None? && d.results.None?
  }

  /** Every activation finds nothing stored, every start can read what is stored, and no observed playing
      time is negative. */
  ghost predicate Calm(s: State, step: Step) {
    && (step.Activate? ==> NothingStored(s.pl.d))
    && (step.Restart? ==> step.r.readable)
    && (step.StoreResult? ==> step.ending.durationMs >= 0)
  }

  ghost predicate Undisturbed(s: State, steps: seq<Step>)
    decreases |steps|
  {
    steps != [] && Enabled(s, steps[0]) ==> Calm(s, steps[0]) && Undisturbed(Next(s, steps[0]), steps[1..])
  }

  /** What is stored can be recovered. */
  ghost predicate CanRecover(d: Durable) {
    NothingStored(d) || Recoverable(d)
  }

  ghost predicate LossInv(s: State) {
    && Inv(s) && Aligned(s.pl) && (s.pl.d.active.Some? ==> Distinct(s.pl.d.active.value.entries))
    && CanRecover(s.pl.d) && s.pl.d.losses == []
  }

  /** The results of an aligned loop are distinct entries that can be recovered. */
  lemma BeginRecoverable(s: State, id: nat, startedAt: int, s': State)
    requires LossInv(s) && Enabled(s, Begin(id, startedAt)) && s' == Next(s, Begin(id, startedAt))
    ensures Recoverable(s'.pl.d)
  {
    var results, m := Stored(s.pl.d.results), s.pl.d.active.value;
    assert results == s.pl.p.loopResults;
    if results == [] { assert Items(results) == []; }
  }

  lemma StoreRecoverable(s: State, ending: Ending, s': State)
    requires LossInv(s) && Enabled(s, StoreResult(ending)) && s' == Next(s, StoreResult(ending))
    requires ending.durationMs >= 0
    ensures Recoverable(s'.pl.d)
  {
    var before, after := Stored(s.pl.d.results), Stored(s'.pl.d.results);
    var c, m := s.pl.p.phase.current, s.pl.d.active.value;
    assert after == before + [ReportOf(Observation(c, ending))];
    assert s.pl.p.loopResults == before;
    assert Items(after) == Items(before) + [c.item];
    forall k | 0 <= k < |before| ensures Items(after)[k] != c.item {
      assert before[k].item == m.entries[s.pl.p.index - |before| + k];
    }
  }

  lemma RestartKeepsLosses(s: State, r: RecoveryInput, s': State)
    requires LossInv(s) && Enabled(s, Restart(r)) && r.readable && s' == Next(s, Restart(r))
    ensures CanRecover(s'.pl.d) && s'.pl.d.losses == []
  {}

  lemma CalmAligned(s: State, step: Step)
    requires Aligned(s.pl) && Enabled(s, step) && (step.Activate? && s.pl.p.Live? ==> s.pl.p.loopResults == [])
    ensures Aligned(Next(s, step).pl)
  {
    match step
    case FinishLoop(input) => assert Next(s, step).pl.p == Live(Next(s, step).pl.p.index, Idle, []);
    case Restart(r) => RestartIsEmpty(s.pl.d, r);
    case _ =>
  }

  lemma RestartIsEmpty(d: Durable, r: RecoveryInput)
    requires d.active.Some? ==> |r.batch.newIds| >= |d.active.value.entries|
    ensures var pl := Recovered(d, r); pl.p.Live? ==> pl.p.phase.Idle? && pl.p.loopResults == []
  {}

  lemma CalmActive(s: State, step: Step)
    requires Enabled(s, step) && (s.pl.d.active.Some? ==> Distinct(s.pl.d.active.value.entries))
    ensures Next(s, step).pl.d.active.Some? ==> Distinct(Next(s, step).pl.d.active.value.entries)
  {}

  lemma CalmStep(s: State, step: Step)
    requires LossInv(s) && Enabled(s, step) && Calm(s, step)
    ensures LossInv(Next(s, step))
  {
    StepInv(s, step);
    CalmAligned(s, step);
    CalmActive(s, step);
    var s' := Next(s, step);
    match step
    case Begin(id, startedAt) => BeginRecoverable(s, id, startedAt, s');
    case StoreResult(ending) => StoreRecoverable(s, ending, s');
    case Restart(r) => RestartKeepsLosses(s, r, s');
    case _ =>
  }

  lemma {:induction false} CalmRun(s: State, steps: seq<Step>, s': State)
    requires LossInv(s) && Run(s, steps, s') && Undisturbed(s, steps)
    ensures LossInv(s')
    decreases |steps|
  {
    if steps != [] {
      CalmStep(s, steps[0]);
      CalmRun(Next(s, steps[0]), steps[1..], s');
    }
  }

  /** Crashes alone lose nothing: over every undisturbed run no loss event is recorded, wherever processes die
      and whatever becomes of the recovery transactions. */
  lemma CrashesLoseNothing(s0: State, steps: seq<Step>, s: State)
    requires Initial(s0) && Run(s0, steps, s) && Undisturbed(s0, steps)
    ensures s.pl.d.losses == []
  {
    assert DurableIds(s0.pl.d) == {};
    CalmRun(s0, steps, s);
  }

  /** With exactly-once accounting: after any undisturbed run every playback that began is still stored, and will
      be recovered, or is one event of one batch. */
  lemma CrashesKeepEverything(s0: State, steps: seq<Step>, s: State, id: nat)
    requires Initial(s0) && Run(s0, steps, s) && Undisturbed(s0, steps) && id in s.begun
    ensures multiset(InsertedIds(s.pl.d.inserted))[id] + (if id in DurableIds(s.pl.d) then 1 else 0) == 1
    ensures id in DurableIds(s.pl.d) ==> Recoverable(s.pl.d)
  {
    CrashesLoseNothing(s0, steps, s);
    ExactlyOnce(s0, steps, s, id);
    assert DurableIds(s0.pl.d) == {};
    CalmRun(s0, steps, s);
    assert LostIds([]) == {};
  }

  // ---- A full loop ----

  /** What is to happen in one loop over `m`: under which id, when, and how each entry plays. */
  datatype Plan = Plan(m: Manifest, ids: seq<nat>, starts: seq<int>, endings: seq<Ending>)

  predicate GoodPlan(p: Plan) {
    && |p.ids| == |p.starts| == |p.endings| == |p.m.entries| > 0 && Distinct(p.ids)
    && forall i :: 0 <= i < |p.endings| ==> !p.endings[i].status.Interrupted?
  }

  /** The events report the first entries of the manifest in order, each as it ended. */
  ghost predicate ReportsPlan(p: Plan, events: seq<Event>)
    requires GoodPlan(p)
  {
    && |events| <= |p.m.entries|
    && forall i :: 0 <= i < |events| ==>
         Reports(events[i], Observation(Checkpoint(p.ids[i], p.m.id, p.m.entries[i], i, p.starts[i]), p.endings[i]))
  }

  ghost predicate UsesOnly(p: Plan, used: set<nat>, used': set<nat>) {
    forall x :: x in used' ==> x in used || x in p.ids
  }

  /** The loop plays as planned and stands between two entries. */
  ghost predicate OnPlan(s: State, p: Plan)
    requires GoodPlan(p)
  {
    && s.pl.d.active == Some(p.m) && s.pl.p.Live? && s.pl.p.phase.Idle?
    && s.pl.p.index == |s.pl.p.loopResults| && ReportsPlan(p, s.pl.p.loopResults)
    && forall j :: |s.pl.p.loopResults| <= j < |p.ids| ==> p.ids[j] !in s.used
  }

  lemma Chained(s: State, first: Step, rest: seq<Step>, s': State)
    requires Enabled(s, first) && Run(Next(s, first), rest, s')
    ensures Run(s, [first] + rest, s')
  {
    assert ([first] + rest)[1..] == rest;
  }

  lemma PlaysNext(s: State, p: Plan) returns (steps: seq<Step>, s': State)
    requires GoodPlan(p) && OnPlan(s, p) && s.pl.p.index < |p.m.entries|
    ensures |steps| == 3 && Run(s, steps, s') && OnPlan(s', p) && s'.pl.p.index == s.pl.p.index + 1
    ensures s'.pl.d.inserted == s.pl.d.inserted && s'.pl.d.losses == s.pl.d.losses
    ensures s'.used == s.used + {p.ids[s.pl.p.index]}
  {
    var i := s.pl.p.index;
    var s1 := Next(s, Begin(p.ids[i], p.starts[i]));
    var s2 := Next(s1, StoreResult(p.endings[i]));
    s' := Next(s2, ClearCheckpoint);
    Chained(s2, ClearCheckpoint, [], s');
    Chained(s1, StoreResult(p.endings[i]), [ClearCheckpoint], s');
    Chained(s, Begin(p.ids[i], p.starts[i]), [StoreResult(p.endings[i])] + [ClearCheckpoint], s');
    steps := [Begin(p.ids[i], p.starts[i])] + ([StoreResult(p.endings[i])] + [ClearCheckpoint]);
    assert forall j :: i < j < |p.ids| ==> p.ids[j] != p.ids[i];
  }

  lemma {:induction false} Joined(s: State, first: seq<Step>, s1: State, rest: seq<Step>, s': State)
    requires Run(s, first, s1) && Run(s1, rest, s')
    ensures Run(s, first + rest, s')
    decreases |first|
  {
    if first == [] {
      assert first + rest == rest;
    } else {
      assert (first + rest)[1..] == first[1..] + rest;
      Joined(Next(s, first[0]), first[1..], s1, rest, s');
    }
  }

  lemma {:induction false} PlaysRest(s: State, p: Plan) returns (steps: seq<Step>, s': State)
    requires GoodPlan(p) && OnPlan(s, p)
    ensures Run(s, steps, s') && OnPlan(s', p) && s'.pl.p.index == |p.m.entries|
    ensures s'.pl.d.inserted == s.pl.d.inserted && s'.pl.d.losses == s.pl.d.losses && UsesOnly(p, s.used, s'.used)
    decreases |p.m.entries| - s.pl.p.index
  {
    if s.pl.p.index == |p.m.entries| {
      steps, s' := [], s;
    } else {
      var first, s1 := PlaysNext(s, p);
      var rest;
      rest, s' := PlaysRest(s1, p);
      Joined(s, first, s1, rest, s');
      steps := first + rest;
    }
  }

  lemma {:induction false} NoFillers(entries: seq<nat>, recorded: set<nat>, newIds: seq<nat>, now: int)
    requires |newIds| >= |entries| && forall i :: 0 <= i < |entries| ==> entries[i] in recorded
    ensures Fillers(entries, recorded, newIds, now) == []
  {
    if entries != [] { NoFillers(entries[..|entries| - 1], recorded, newIds, now); }
  }

  /** A loop that nothing interrupts ends in one batch that reports every entry in the order of the manifest,
      each exactly as it ended, and the next loop starts with the first entry again. */
  lemma FullLoopIsReported(s: State, p: Plan, input: BatchInput) returns (steps: seq<Step>, s': State)
    requires GoodPlan(p) && s.pl.d.active == Some(p.m) && s.pl.p == Live(0, Idle, [])
    requires forall j :: 0 <= j < |p.ids| ==> p.ids[j] !in s.used
    requires FreshInput(s.used + (set x | x in p.ids), Some(p.m), input)
    ensures Run(s, steps, s') && s'.pl.p == Live(0, Idle, []) && CanBegin(s'.pl)
    ensures InsertedLast(s.pl.d.inserted, s'.pl.d.inserted, p.m, [], input) && s'.pl.d.losses == s.pl.d.losses
    ensures var events := s'.pl.d.inserted[|s.pl.d.inserted|].batch.events;
            |events| == |p.m.entries| && ReportsPlan(p, events)
  {
    var s1;
    steps, s1 := PlaysRest(s, p);
    s' := Next(s1, FinishLoop(input));
    var results := s1.pl.p.loopResults;
    forall i | 0 <= i < |p.m.entries| ensures p.m.entries[i] in RecordedItems(results) {
      assert results[i].item == p.m.entries[i];
    }
    NoFillers(p.m.entries, RecordedItems(results), input.newIds, input.now);
    Chained(s1, FinishLoop(input), [], s');
    Joined(s, steps, s1, [FinishLoop(input)], s');
    steps := steps + [FinishLoop(input)];
  }
}
