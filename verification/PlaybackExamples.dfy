/** A run in which an activation between two items ends in a batch that the server refuses. */
module PlaybackExamples {
  import opened Options
  import opened Evidence
  import opened LoopBatch
  import opened PlaybackEvidence
  import opened PlaybackRuns

  const OLD := Manifest(1, [10, 11])

  const NEW := Manifest(2, [20])

  const DONE := Ending(Completed, "", 5, 5)

  const NO_IDS := BatchInput([], 0, 0, 0, 0, true)

  const CLOSING := BatchInput([3], 4, 9, 0, 9, false)

  function Start(): State {
    State(Player(Durable(None, None, None, [], []), Down), map[], {}, {})
  }

  function Played(id: nat, item: nat): Event {
    Event(id, item, 0, Some(5), 5, Completed, "")
  }

  const FIRST := Checkpoint(1, 1, 10, 0, 0)

  const SECOND := Checkpoint(2, 2, 20, 0, 0)

  /** The first item of the old manifest is recorded and its successor not yet begun. */
  function BetweenItems(): State {
    var results := [Played(1, 10)];
    State(Player(Durable(Some(OLD), None, Some(results), [], []), Live(1, Idle, results)),
          map[1 := FIRST], {Observation(FIRST, DONE)}, {0, 1})
  }

  lemma RunStep(s: State, step: Step, rest: seq<Step>, s': State)
    requires Enabled(s, step) && Run(Next(s, step), rest, s')
    ensures Run(s, [step] + rest, s')
  {
    assert ([step] + rest)[1..] == rest;
  }

  /** The old manifest is active and nothing has played yet. */
  function OldActivated(): State {
    State(Player(Durable(Some(OLD), None, None, [], []), Live(0, Idle, [])), map[], {}, {0})
  }

  lemma Activates(rest: seq<Step>, s': State)
    requires Run(OldActivated(), rest, s')
    ensures exists steps :: Run(Start(), steps, s')
  {
    var restart := Restart(RecoveryInput(true, Commits, 0, "", NO_IDS));
    var s1 := Next(Start(), restart);
    assert s1.used == {0} && s1.pl.p == Live(0, Idle, []);
    assert Next(s1, Activate(OLD)) == OldActivated();
    RunStep(s1, Activate(OLD), rest, s');
    RunStep(Start(), restart, [Activate(OLD)] + rest, s');
  }

  lemma PlaysOneItem(rest: seq<Step>, s': State)
    requires Run(BetweenItems(), rest, s')
    ensures exists steps :: Run(Start(), steps, s')
  {
    var s1 := Next(OldActivated(), Begin(1, 0));
    assert s1.pl.p.phase == Playing(FIRST);
    var s2 := Next(s1, StoreResult(DONE));
    assert s2.pl.p.loopResults == [Played(1, 10)];
    assert s2.used == {0, 1} && s2.recorded == {Observation(FIRST, DONE)};
    assert Next(s2, ClearCheckpoint) == BetweenItems();
    RunStep(s2, ClearCheckpoint, rest, s');
    RunStep(s1, StoreResult(DONE), [ClearCheckpoint] + rest, s');
    var tail := [StoreResult(DONE)] + ([ClearCheckpoint] + rest);
    RunStep(OldActivated(), Begin(1, 0), tail, s');
    Activates([Begin(1, 0)] + tail, s');
  }

  /** The new manifest, activated in the gap, has been played to its end. */
  function AtNewEnd(): State {
    var results := [Played(1, 10), Played(2, 20)];
    State(Player(Durable(Some(NEW), None, Some(results), [], []), Live(1, Idle, results)),
          map[1 := FIRST, 2 := SECOND], {Observation(FIRST, DONE), Observation(SECOND, DONE)}, {0, 1, 2})
  }

  lemma PlaysNew(rest: seq<Step>, s': State)
    requires Run(AtNewEnd(), rest, s')
    ensures exists steps :: Run(BetweenItems(), steps, s')
  {
    var s1 := Next(BetweenItems(), Activate(NEW));
    var s2 := Next(s1, Begin(2, 0));
    assert s2.pl.p.phase == Playing(SECOND);
    var s3 := Next(s2, StoreResult(DONE));
    assert s3.pl.p.loopResults == [Played(1, 10), Played(2, 20)];
    assert s3.used == {0, 1, 2} && s3.recorded == {Observation(FIRST, DONE), Observation(SECOND, DONE)};
    assert Next(s3, ClearCheckpoint) == AtNewEnd();
    RunStep(s3, ClearCheckpoint, rest, s');
    RunStep(s2, StoreResult(DONE), [ClearCheckpoint] + rest, s');
    var tail := [StoreResult(DONE)] + ([ClearCheckpoint] + rest);
    RunStep(s1, Begin(2, 0), tail, s');
    RunStep(BetweenItems(), Activate(NEW), [Begin(2, 0)] + tail, s');
  }

  lemma Closes() returns (s: State)
    ensures Run(AtNewEnd(), [FinishLoop(CLOSING)], s)
    ensures |s.pl.d.inserted| == 1 && s.pl.d.inserted[0].manifest == NEW
    ensures Items(s.pl.d.inserted[0].batch.events) == [10, 20]
  {
    var s0 := AtNewEnd();
    s := Next(s0, FinishLoop(CLOSING));
    var results := s0.pl.p.loopResults;
    assert 20 in RecordedItems(results) by { assert results[1].item == 20; }
    assert Fillers([20], RecordedItems(results), [3], 9) == [];
    assert s.pl.d.inserted[0].batch.events == results;
    RunStep(s0, FinishLoop(CLOSING), [], s);
  }

  /** A reachable state holds a batch that does not cover its manifest. */
  lemma UncoveredBatchIsReached()
    ensures exists s0: State, steps: seq<Step>, s: State ::
              Initial(s0) && Run(s0, steps, s) && |s.pl.d.inserted| > 0 && !Covers(s.pl.d.inserted[0])
  {
    var s := Closes();
    PlaysNew([FinishLoop(CLOSING)], s);
    var rest :| Run(BetweenItems(), rest, s);
    PlaysOneItem(rest, s);
    var steps :| Run(Start(), steps, s);
    assert Items(s.pl.d.inserted[0].batch.events)[0] == 10;
    assert 10 in Members(Items(s.pl.d.inserted[0].batch.events)) && 10 !in Members(NEW.entries);
    assert Initial(Start());
  }
}
