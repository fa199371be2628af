/** The play loop and its durable evidence. A process may die between any two durable writes; the next
    start recovers. Result ids are UUIDs, drawn fresh. */
module PlaybackEvidence {
  import opened Options
  import opened Evidence
  import opened LoopBatch

  datatype Checkpoint = Checkpoint(resultId: nat, playlistId: nat, item: nat, index: int, startedAt: int)

  /** A batch as it was inserted into the queue, with the manifest it was built for. */
  datatype Inserted = Inserted(batch: Batch, manifest: Manifest)

  /** What survives a crash. `inserted` is every batch ever put into the queue and `losses` the result ids
      each checkpoint-loss event covers. */
  datatype Durable = Durable(
    active: Option<Manifest>,
    checkpoint: Option<Checkpoint>,
    results: Option<seq<Event>>,
    inserted: seq<Inserted>,
    losses: seq<set<nat>>)

  /** Playing: an item is current. Recorded: its result is stored and its checkpoint not yet cleared.
      Closing: it was interrupted and its loop must be finished. */
  datatype Phase = Idle | Playing(current: Checkpoint) | Recorded(interrupted: bool) | Closing

  /** Blocked: recovery could not confirm its transaction, so nothing plays until a restart. */
  datatype Process = Down | Blocked | Live(index: nat, phase: Phase, loopResults: seq<Event>)

  datatype Player = Player(d: Durable, p: Process)

  /** What the environment supplies when a batch is built. */
  datatype BatchInput = BatchInput(
    newIds: seq<nat>,
    batchId: nat,
    now: int,
    startedAt: int,
    endedAt: int,
    offline: bool)

  function Stored(results: Option<seq<Event>>): seq<Event> {
    if results.Some? then results.value else []
  }

  function Cleared(d: Durable): Durable {
    d.(checkpoint := None, results := None)
  }

  function BuiltBatch(m: Manifest, results: seq<Event>, input: BatchInput): Batch
    requires |input.newIds| >= |m.entries|
  {
    Batch(input.batchId, m.id, input.startedAt, input.endedAt, input.offline,
          LoopEvents(m, results, input.newIds, input.now))
  }

  /** One transaction: the batch enters the queue and the playback state is cleared. */
  function Enqueued(d: Durable, m: Manifest, results: seq<Event>, input: BatchInput): Durable
    requires |input.newIds| >= |m.entries|
  {
    Cleared(d).(inserted := d.inserted + [Inserted(BuiltBatch(m, results, input), m)])
  }

  function DurableIds(d: Durable): set<nat> {
    (if d.checkpoint.Some? then {d.checkpoint.value.resultId} else {})
    + set k | 0 <= k < |Stored(d.results)| :: Stored(d.results)[k].id
  }

  function LossRecorded(d: Durable): Durable {
    Cleared(d).(losses := d.losses + [DurableIds(d)])
  }

  // ---- The live loop ----

  predicate CanBegin(pl: Player) {
    pl.p.Live? && pl.p.phase.Idle? && pl.d.active.Some? && pl.p.index < |pl.d.active.value.entries|
  }

  function NewCheckpoint(pl: Player, id: nat, startedAt: int): Checkpoint
    requires CanBegin(pl)
  {
    var m := pl.d.active.value;
    Checkpoint(id, m.id, m.entries[pl.p.index], pl.p.index, startedAt)
  }

  function Begun(pl: Player, id: nat, startedAt: int): Player
    requires CanBegin(pl)
  {
    var c := NewCheckpoint(pl, id, startedAt);
    Player(pl.d.(checkpoint := Some(c)), pl.p.(phase := Playing(c)))
  }

  datatype Ending = Ending(status: Status, reason: string, durationMs: int, endedAt: int)

  /** What the loop saw of one playback: its checkpoint and how it ended. */
  datatype Observation = Observation(checkpoint: Checkpoint, ending: Ending)

  /** The event reports the observed playback, field by field. */
  predicate Reports(e: Event, o: Observation) {
    && e.id == o.checkpoint.resultId && e.item == o.checkpoint.item && e.startedAt == o.checkpoint.startedAt
    && e.endedAt == Some(o.ending.endedAt) && e.durationMs == o.ending.durationMs
    && e.status == o.ending.status && e.failureReason == o.ending.reason
  }

  predicate IsPlaying(pl: Player) {
    pl.p.Live? && pl.p.phase.Playing?
  }

  function ResultOf(c: Checkpoint, e: Ending): Event {
    Event(c.resultId, c.item, c.startedAt, Some(e.endedAt), e.durationMs, e.status, e.reason)
  }

  function ResultStored(pl: Player, e: Ending): Player
    requires IsPlaying(pl)
  {
    var results := pl.p.loopResults + [ResultOf(pl.p.phase.current, e)];
    Player(pl.d.(results := Some(results)), pl.p.(phase := Recorded(e.status.Interrupted?), loopResults := results))
  }

  predicate IsRecorded(pl: Player) {
    pl.p.Live? && pl.p.phase.Recorded?
  }

  /** After an interruption the loop is closed at once; otherwise playback advances. */
  function CheckpointCleared(pl: Player): Player
    requires IsRecorded(pl)
  {
    Player(pl.d.(checkpoint := None),
           if pl.p.phase.interrupted then pl.p.(phase := Closing)
           else pl.p.(phase := Idle, index := pl.p.index + 1))
  }

  predicate AtBoundary(pl: Player) {
    && pl.p.Live? && pl.d.active.Some? && pl.d.active.value.entries != []
    && (pl.p.phase.Closing? || (pl.p.phase.Idle? && pl.p.index >= |pl.d.active.value.entries|))
  }

  function LoopFinished(pl: Player, input: BatchInput): Player
    requires AtBoundary(pl) && |input.newIds| >= |pl.d.active.value.entries|
  {
    Player(if pl.p.loopResults == [] then Cleared(pl.d) else Enqueued(pl.d, pl.d.active.value, pl.p.loopResults, input),
           Live(if pl.p.phase.Closing? then pl.p.index else 0, Idle, []))
  }

  predicate CanActivate(pl: Player) {
    pl.p.Blocked? || (pl.p.Live? && pl.p.phase.Idle?)
  }

  /** The new manifest replaces the active file. Results of the loop in progress stay in memory. */
  function Activated(pl: Player, m: Manifest): Player
    requires CanActivate(pl)
  {
    Player(pl.d.(active := Some(m)), if pl.p.Blocked? then pl.p else pl.p.(index := 0))
  }

  // ---- Recovery at process start ----

  /** Whether the enqueue transaction of a recovery succeeds, fails, or commits and then reports failure. */
  datatype Outcome = Commits | ThrowsBeforeCommit | ThrowsAfterCommit

  /** `readable`: the stored texts parse. The ending is that of the interrupted item. */
  datatype RecoveryInput = RecoveryInput(
    readable: bool,
    outcome: Outcome,
    durationMs: nat,
    reason: string,
    batch: BatchInput)

  predicate CheckpointFits(m: Manifest, c: Checkpoint, results: seq<Event>) {
    && c.playlistId == m.id && 0 <= c.index < |m.entries| && m.entries[c.index] == c.item
    && forall k :: 0 <= k < |results| && results[k].item == c.item ==> results[k].id == c.resultId
  }

  predicate Recoverable(d: Durable) {
    && d.active.Some? && d.active.value.entries != []
    && ValidResults(Stored(d.results), d.active.value.entries)
    && (d.checkpoint.Some? ==> CheckpointFits(d.active.value, d.checkpoint.value, Stored(d.results)))
  }

  /** The stored results, and the interrupted item unless its result is already among them. */
  function RecoveredResults(d: Durable, r: RecoveryInput): seq<Event> {
    var results := Stored(d.results);
    if d.checkpoint.None? || d.checkpoint.value.item in Items(results) then results
    else results + [ResultOf(d.checkpoint.value, Ending(Interrupted, r.reason, r.durationMs, r.batch.now))]
  }

  function ResumesAt(d: Durable, results: seq<Event>): nat
    requires d.active.Some? && d.active.value.entries != []
    requires d.checkpoint.Some? ==> 0 <= d.checkpoint.value.index < |d.active.value.entries|
    requires d.checkpoint.None? ==> results != [] && results[|results| - 1].item in d.active.value.entries
  {
    ResumeIndex(d.active.value.entries, Items(results),
                if d.checkpoint.Some? then Some(d.checkpoint.value.index) else None)
  }

  function Recovered(d: Durable, r: RecoveryInput): Player
    requires d.active.Some? ==> |r.batch.newIds| >= |d.active.value.entries|
  {
    if d.checkpoint.None? && d.results.None? then Player(d, Live(0, Idle, []))
    else if !r.readable || !Recoverable(d) then Player(LossRecorded(d), Live(0, Idle, []))
    else if d.checkpoint.None? && Stored(d.results) == [] then Player(Cleared(d), Live(0, Idle, []))
    else
      var results := RecoveredResults(d, r);
      if r.outcome.ThrowsBeforeCommit? then Player(d, Blocked)
      else
        assert d.checkpoint.None? ==> Items(results)[|results| - 1] in d.active.value.entries;
        Player(Enqueued(d, d.active.value, results, r.batch),
               if r.outcome.ThrowsAfterCommit? then Blocked else Live(ResumesAt(d, results), Idle, []))
  }

  /** The queue received one batch more: of the given manifest and times, starting with the given results. */
  ghost predicate InsertedLast(
    before: seq<Inserted>, after: seq<Inserted>, m: Manifest, results: seq<Event>, input: BatchInput)
  {
    && |after| == |before| + 1 && before <= after
    && var i := after[|before|];
       && i.manifest == m && i.batch.id == input.batchId && i.batch.playlistId == m.id
       && i.batch.loopStartedAt == input.startedAt && i.batch.loopEndedAt == input.endedAt
       && i.batch.capturedOffline == input.offline && results <= i.batch.events
  }

  /** A recovery that gets through reports the stored results as they are and the interrupted item, once, with
      the item and start of its checkpoint and the ending the start determined. */
  lemma RecoveryReports(d: Durable, r: RecoveryInput)
    requires r.readable && Recoverable(d) && (d.checkpoint.Some? || Stored(d.results) != [])
    requires |r.batch.newIds| >= |d.active.value.entries| && !r.outcome.ThrowsBeforeCommit?
    ensures var d', m, c, results := Recovered(d, r).d, d.active.value, d.checkpoint, Stored(d.results);
            && d' == d.(checkpoint := None, results := None, inserted := d'.inserted)
            && InsertedLast(d.inserted, d'.inserted, m, results, r.batch)
            && (c.Some? && c.value.item !in Items(results) ==>
                  InsertedLast(d.inserted, d'.inserted, m, results
                    + [Event(c.value.resultId, c.value.item, c.value.startedAt, Some(r.batch.now), r.durationMs,
                             Interrupted, r.reason)], r.batch))
  {
    var results := RecoveredResults(d, r);
    assert Stored(d.results) <= results <= LoopEvents(d.active.value, results, r.batch.newIds, r.batch.now);
  }

  /** Unless the commit then reported a failure, playback resumes at that item, or cyclically after the last one
      that was recorded. */
  lemma RecoveryResumes(d: Durable, r: RecoveryInput)
    requires r.readable && Recoverable(d) && (d.checkpoint.Some? || Stored(d.results) != [])
    requires |r.batch.newIds| >= |d.active.value.entries| && !r.outcome.ThrowsBeforeCommit?
    ensures var p, m, c, results := Recovered(d, r).p, d.active.value, d.checkpoint, Stored(d.results);
            if r.outcome.ThrowsAfterCommit? then p == Blocked
            else
              && p.Live? && p == Live(p.index, Idle, []) && p.index < |m.entries|
              && if c.Some? then p.index == c.value.index
                 else m.entries[if p.index == 0 then |m.entries| - 1 else p.index - 1] == results[|results| - 1].item
  {
    var entries, recorded := d.active.value.entries, Items(RecoveredResults(d, r));
    if d.checkpoint.None? {
      assert recorded[|recorded| - 1] in entries;
      ResumesAfterLast(entries, recorded);
    }
  }

  /** What recovery cannot use it gives up in one loss event over exactly the stored ids; a failure before the
      commit leaves every row. */
  lemma RecoveryKeepsOrLoses(d: Durable, r: RecoveryInput)
    requires d.active.Some? ==> |r.batch.newIds| >= |d.active.value.entries|
    requires d.checkpoint.Some? || Stored(d.results) != []
    ensures var pl := Recovered(d, r);
            && (!r.readable || !Recoverable(d) ==>
                  && pl == Player(d.(checkpoint := None, results := None, losses := pl.d.losses), Live(0, Idle, []))
                  && |pl.d.losses| == |d.losses| + 1 && d.losses <= pl.d.losses
                  && forall x :: x in pl.d.losses[|d.losses|] <==>
                       (d.checkpoint.Some? && x == d.checkpoint.value.resultId) || x in Ids(Stored(d.results)))
            && (r.readable && Recoverable(d) && r.outcome.ThrowsBeforeCommit? ==> pl == Player(d, Blocked))
  {
    forall x | x in DurableIds(d)
      ensures (d.checkpoint.Some? && x == d.checkpoint.value.resultId) || x in Ids(Stored(d.results))
    {
      if x !in Ids(Stored(d.results)) {
        forall k | 0 <= k < |Stored(d.results)| ensures Stored(d.results)[k].id != x {
          assert Ids(Stored(d.results))[k] == Stored(d.results)[k].id;
        }
      }
    }
  }

  /** The activity's fields and the rows of the player's database. */
  class PlaybackLoop {
    var activeManifest: Option<Manifest>
    var checkpoint: Option<Checkpoint>
    var storedResults: Option<seq<Event>>
    var inserted: seq<Inserted>
    var losses: seq<set<nat>>
    var currentIndex: nat
    var current: Option<Checkpoint>
    var loopResults: seq<Event>
    var recoveryBlocked: bool

    function Durables(): Durable
      reads this
    {
      Durable(activeManifest, checkpoint, storedResults, inserted, losses)
    }

    function View(): Player
      reads this
    {
      Player(Durables(),
             if recoveryBlocked then Blocked
             else Live(currentIndex, if current.Some? then Playing(current.value) else Idle, loopResults))
    }

    /** A new process over the rows an earlier one left. */
    constructor (d: Durable)
      ensures Durables() == d && current.None? && loopResults == [] && !recoveryBlocked
    {
      activeManifest, checkpoint, storedResults := d.active, d.checkpoint, d.results;
      inserted, losses := d.inserted, d.losses;
      currentIndex, current, loopResults, recoveryBlocked := 0, None, [], false;
    }

    method BeginCurrentPlayback(id: nat, startedAt: int)
      requires CanBegin(View())
      modifies this
      ensures var m, i := old(activeManifest.value), old(currentIndex);
              current == checkpoint == Some(Checkpoint(id, m.id, m.entries[i], i, startedAt))
      ensures unchanged(`activeManifest, `currentIndex, `storedResults, `inserted, `losses, `loopResults)
      ensures View() == old(Begun(View(), id, startedAt))
    {
      var m := activeManifest.value;
      current := Some(Checkpoint(id, m.id, m.entries[currentIndex], currentIndex, startedAt));
      checkpoint := current;
    }

    /** Whether there is a current item to record. */
    predicate HasCurrent()
      reads this
    {
      current.Some? && activeManifest.Some? && currentIndex < |activeManifest.value.entries|
    }

    method RecordCurrent(e: Ending) returns (recorded: bool)
      modifies this
      ensures recorded == old(HasCurrent())
      ensures !recorded ==> unchanged(this)
      ensures recorded ==>
                var c := old(current.value);
                && loopResults == old(loopResults)
                   + [Event(c.resultId, c.item, c.startedAt, Some(e.endedAt), e.durationMs, e.status, e.reason)]
                && storedResults == Some(loopResults) && checkpoint.None? && current.None?
      ensures unchanged(`activeManifest, `inserted, `losses, `currentIndex, `recoveryBlocked)
      ensures recorded && !recoveryBlocked ==>
                var cleared := old(CheckpointCleared(ResultStored(View(), e)));
                Durables() == cleared.d && loopResults == cleared.p.loopResults
    {
      if activeManifest.None? || currentIndex >= |activeManifest.value.entries| || current.None? { return false; }
      var c := current.value;
      current := None;
      loopResults := loopResults + [ResultOf(c, e)];
      storedResults := Some(loopResults);
      checkpoint := None;
      recorded := true;
    }

    /** A completed or failed item: the result is stored and playback moves on. */
    method RecordAndAdvance(e: Ending)
      requires !recoveryBlocked && !e.status.Interrupted?
      modifies this
      ensures old(HasCurrent()) ==>
                var c := old(current.value);
                && storedResults == Some(old(loopResults)
                   + [Event(c.resultId, c.item, c.startedAt, Some(e.endedAt), e.durationMs, e.status, e.reason)])
                && checkpoint.None? && current.None? && currentIndex == old(currentIndex) + 1
      ensures old(HasCurrent()) ==> View() == old(CheckpointCleared(ResultStored(View(), e)))
      ensures !old(HasCurrent()) ==> unchanged(this)
    {
      var recorded := RecordCurrent(e);
      if recorded {
        currentIndex := currentIndex + 1;
      }
    }

    method FinishLoop(m: Manifest, input: BatchInput)
      requires |input.newIds| >= |m.entries|
      modifies this
      ensures loopResults == [] && storedResults.None? && checkpoint.None?
      ensures unchanged(`current, `currentIndex, `recoveryBlocked, `activeManifest, `losses)
      ensures old(loopResults) == [] ==> inserted == old(inserted)
      ensures old(loopResults) != [] ==> InsertedLast(old(inserted), inserted, m, old(loopResults), input)
      ensures Durables() == if old(loopResults) == [] then Cleared(old(Durables()))
                            else Enqueued(old(Durables()), m, old(loopResults), input)
    {
      if loopResults != [] {
        var batch := BuildLoopBatch(m, loopResults, input.newIds, input.now, input.batchId,
                                    input.startedAt, input.endedAt, input.offline);
        inserted := inserted + [Inserted(batch, m)];
      }
      checkpoint := None;
      storedResults := None;
      loopResults := [];
    }

    /** Without a current item nothing happens: results of the loop in progress stay. */
    method InterruptCurrent(e: Ending, input: BatchInput)
      requires !recoveryBlocked && e.status.Interrupted?
      requires activeManifest.Some? ==> |input.newIds| >= |activeManifest.value.entries|
      modifies this
      ensures old(HasCurrent()) ==>
                var c := old(current.value);
                && InsertedLast(old(inserted), inserted, old(activeManifest.value), old(loopResults)
                   + [Event(c.resultId, c.item, c.startedAt, Some(e.endedAt), e.durationMs, e.status, e.reason)], input)
                && storedResults.None? && checkpoint.None? && current.None? && loopResults == []
                && currentIndex == old(currentIndex)
      ensures old(HasCurrent()) ==> View() == old(LoopFinished(CheckpointCleared(ResultStored(View(), e)), input))
      ensures !old(HasCurrent()) ==> unchanged(this)
    {
      if current.None? { return; }
      var recorded := RecordCurrent(e);
      if recorded {
        FinishLoop(activeManifest.value, input);
      }
    }

    /** The checks before a batch is built. */
    method IsRecoverable() returns (valid: bool)
      ensures valid == Recoverable(Durables())
    {
      if activeManifest.None? || activeManifest.value.entries == [] { return false; }
      var results := if storedResults.Some? then storedResults.value else [];
      valid := ValidatePersistedLoopResults(results, activeManifest.value.entries);
      if valid && checkpoint.Some? {
        valid := CheckpointFits(activeManifest.value, checkpoint.value, results);
      }
    }

    /** `recovered` false means that playback stays blocked until the next start. */
    method RecoverInterruptedPlayback(r: RecoveryInput) returns (recovered: bool)
      requires activeManifest.Some? ==> |r.batch.newIds| >= |activeManifest.value.entries|
      requires current.None? && loopResults == [] && currentIndex == 0 && !recoveryBlocked
      modifies this
      ensures View() == old(Recovered(Durables(), r))
      ensures recovered == !recoveryBlocked
    {
      if checkpoint.None? && storedResults.None? { return true; }
      var results := if storedResults.Some? then storedResults.value else [];
      var valid := IsRecoverable();
      if !r.readable || !valid {
        losses := losses + [DurableIds(Durables())];
        checkpoint, storedResults := None, None;
        return true;
      }
      if checkpoint.None? && results == [] {
        storedResults := None;
        return true;
      }
      var m := activeManifest.value;
      var resume := if checkpoint.Some? then Some(checkpoint.value.index as nat) else None;
      if checkpoint.Some? && checkpoint.value.item !in Items(results) {
        results := results + [ResultOf(checkpoint.value, Ending(Interrupted, r.reason, r.durationMs, r.batch.now))];
      }
      assert resume.None? ==> Items(results)[|results| - 1] in m.entries;
      var resumeIndex := ResumeIndex(m.entries, Items(results), resume);
      var batch := BuildLoopBatch(m, results, r.batch.newIds, r.batch.now, r.batch.batchId,
                                  r.batch.startedAt, r.batch.endedAt, r.batch.offline);
      if r.outcome.ThrowsBeforeCommit? {
        recoveryBlocked := true;
        return false;
      }
      inserted := inserted + [Inserted(batch, m)];
      checkpoint, storedResults := None, None;
      if r.outcome.ThrowsAfterCommit? {
        recoveryBlocked := true;
        return false;
      }
      currentIndex := resumeIndex;
      recovered := true;
    }
  }
}
