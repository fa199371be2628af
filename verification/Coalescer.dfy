/** The lock-free request coalescer of the player: two atomic flags, any number of calling
    threads, and an executor. One atomic operation is one step.

    The safety half holds for an executor with any number of threads. The settling half is
    about the single-threaded executors the player creates. */
module Coalescer {

  /** Program points of `requestCoalesced` and of the task it submits. */
  datatype Pc = AtSet | AtCas | AtExecute | AtDrain | AtWork | AtClear | AtCheck

  /** What the trace remembers: a request that raised `pending`, a run of the work that started. */
  datatype Mark = Requested | RunStarted

  datatype Flags = Flags(pending: bool, inFlight: bool, queued: nat, trace: seq<Mark>)

  /** `callers` are threads inside a call, `tasks` are executor threads inside a submitted task. */
  datatype State = State(flags: Flags, callers: map<nat, Pc>, tasks: map<nat, Pc>)

  datatype Step = Call(thread: nat) | Caller(thread: nat) | Start(thread: nat) | Task(thread: nat, throws: bool)

  datatype Position = Left | Position(pc: Pc)

  const INITIAL := State(Flags(false, false, 0, []), map[], map[])

  /** The one atomic operation a thread at `pc` performs, and where it is afterwards. */
  function Advance(f: Flags, pc: Pc, throws: bool): (Flags, Position) {
    match pc
    case AtSet => (f.(pending := true, trace := f.trace + [Requested]), Position(AtCas))
    case AtCas => if f.inFlight then (f, Left) else (f.(inFlight := true), Position(AtExecute))
    case AtExecute => (f.(queued := f.queued + 1), Left)
    case AtDrain =>
      if f.pending then (f.(pending := false, trace := f.trace + [RunStarted]), Position(AtWork))
      else (f, Position(AtClear))
    case AtWork => (f, Position(if throws then AtClear else AtDrain))
    case AtClear => (f.(inFlight := false), Position(AtCheck))
    case AtCheck => if f.pending then (f, Position(AtSet)) else (f, Left)
  }

  function Put(m: map<nat, Pc>, t: nat, p: Position): map<nat, Pc> {
    if p.Left? then m - {t} else m[t := p.pc]
  }

  predicate Enabled(s: State, step: Step) {
    match step
    case Call(t) => t !in s.callers
    case Caller(t) => t in s.callers
    case Start(t) => t !in s.tasks && s.flags.queued > 0
    case Task(t, _) => t in s.tasks
  }

  function Next(s: State, step: Step): State
    requires Enabled(s, step)
  {
    match step
    case Call(t) => s.(callers := s.callers[t := AtSet])
    case Caller(t) =>
      var (f, p) := Advance(s.flags, s.callers[t], false);
      s.(flags := f, callers := Put(s.callers, t, p))
    case Start(t) => s.(flags := s.flags.(queued := s.flags.queued - 1), tasks := s.tasks[t := AtDrain])
    case Task(t, throws) =>
      var (f, p) := Advance(s.flags, s.tasks[t], throws);
      s.(flags := f, tasks := Put(s.tasks, t, p))
  }

  /** `steps` is a run from `s` to `s'`. */
  ghost predicate Run(s: State, steps: seq<Step>, s': State)
    decreases |steps|
  {
    if steps == [] then s == s'
    else Enabled(s, steps[0]) && Run(Next(s, steps[0]), steps[1..], s')
  }

  // ---- Counting threads ----

  function Among(m: map<nat, Pc>, pcs: set<Pc>): set<nat> {
    set t | t in m && m[t] in pcs
  }

  function Count(m: map<nat, Pc>, pcs: set<Pc>): nat {
    |Among(m, pcs)|
  }

  lemma CountRemove(m: map<nat, Pc>, t: nat, pcs: set<Pc>)
    requires t in m
    ensures Count(m - {t}, pcs) == Count(m, pcs) - (if m[t] in pcs then 1 else 0)
  {
    assert Among(m - {t}, pcs) == Among(m, pcs) - {t};
  }

  lemma CountSet(m: map<nat, Pc>, t: nat, pc: Pc, pcs: set<Pc>)
    requires t !in m
    ensures Count(m[t := pc], pcs) == Count(m, pcs) + (if pc in pcs then 1 else 0)
  {
    assert Among(m[t := pc], pcs) == Among(m, pcs) + (if pc in pcs then {t} else {});
  }

  /** A thread that moves changes a count by leaving it and by entering it. */
  lemma CountPut(m: map<nat, Pc>, t: nat, p: Position, pcs: set<Pc>)
    requires t in m
    ensures Count(Put(m, t, p), pcs)
            == Count(m, pcs) - (if m[t] in pcs then 1 else 0) + (if p.Position? && p.pc in pcs then 1 else 0)
  {
    CountRemove(m, t, pcs);
    if p.Position? {
      CountSet(m - {t}, t, p.pc, pcs);
      assert (m - {t})[t := p.pc] == m[t := p.pc];
    }
  }

  lemma CountPositive(m: map<nat, Pc>, t: nat, pcs: set<Pc>)
    requires t in m && m[t] in pcs
    ensures Count(m, pcs) > 0
  {
    assert t in Among(m, pcs);
  }

  lemma CountAtMostOne(m: map<nat, Pc>, t: nat, u: nat, pcs: set<Pc>)
    requires t in m && u in m && m[t] in pcs && m[u] in pcs && t != u
    ensures Count(m, pcs) >= 2
  {
    assert |Among(m, pcs) - {t, u}| == |Among(m, pcs)| - |{t, u}|;
  }

  /** The program points responsible for the flag `inFlight` being up. */
  const OWNING := {AtExecute, AtDrain, AtWork, AtClear}

  // ---- The invariant ----

  ghost predicate CallersWellPlaced(s: State) {
    forall t :: t in s.callers ==> s.callers[t] in {AtSet, AtCas, AtExecute}
  }

  ghost predicate OneOwner(s: State) {
    Count(s.callers, OWNING) + Count(s.tasks, OWNING) + s.flags.queued == if s.flags.inFlight then 1 else 0
  }

  /** Somebody who has not finished looking at `pending` is still on the way. */
  ghost predicate Watched(s: State) {
    s.flags.pending ==>
      || s.flags.inFlight
      || (exists t :: t in s.callers && s.callers[t] in {AtSet, AtCas})
      || (exists t :: t in s.tasks && s.tasks[t] in {AtSet, AtCas, AtCheck})
  }

  ghost predicate TraceMatches(f: Flags) {
    f.pending <==> f.trace != [] && f.trace[|f.trace| - 1] == Requested
  }

  ghost predicate Inv(s: State) {
    CallersWellPlaced(s) && OneOwner(s) && Watched(s) && TraceMatches(s.flags)
  }

  lemma InitialInv()
    ensures Inv(INITIAL)
  {
    assert Among(map[], OWNING) == {};
  }

  lemma StepOneOwner(s: State, step: Step)
    requires Inv(s) && Enabled(s, step)
    ensures OneOwner(Next(s, step))
  {
    var t := step.thread;
    match step
    case Call(_) =>
      CountSet(s.callers, t, AtSet, OWNING);
    case Caller(_) =>
      CountPut(s.callers, t, Advance(s.flags, s.callers[t], false).1, OWNING);
    case Start(_) =>
      CountSet(s.tasks, t, AtDrain, OWNING);
    case Task(_, throws) =>
      CountPut(s.tasks, t, Advance(s.flags, s.tasks[t], throws).1, OWNING);
  }

  lemma StepWatched(s: State, step: Step)
    requires Inv(s) && Enabled(s, step)
    ensures Watched(Next(s, step))
  {
    var s' := Next(s, step);
    var t := step.thread;
    if s'.flags.pending && !s'.flags.inFlight {
      if step.Task? && s.tasks[t] == AtClear {
        assert s'.tasks[t] == AtCheck;
      } else if step.Task? && s.tasks[t] in OWNING {
        CountPositive(s.tasks, t, OWNING);
      } else if step.Caller? && s.callers[t] == AtSet {
        assert s'.callers[t] == AtCas;
      } else if step.Task? && t in s'.tasks {
        assert s'.tasks[t] in {AtSet, AtCas};
      } else if exists u :: u in s.callers && s.callers[u] in {AtSet, AtCas} {
        var u :| u in s.callers && s.callers[u] in {AtSet, AtCas};
        assert u in s'.callers && s'.callers[u] == s.callers[u];
      } else if exists u :: u in s.tasks && s.tasks[u] in {AtSet, AtCas, AtCheck} {
        var u :| u in s.tasks && s.tasks[u] in {AtSet, AtCas, AtCheck};
        assert u in s'.tasks && s'.tasks[u] == s.tasks[u];
      }
    }
  }

  lemma StepInv(s: State, step: Step)
    requires Inv(s) && Enabled(s, step)
    ensures Inv(Next(s, step))
  {
    StepOneOwner(s, step);
    StepWatched(s, step);
  }

  lemma {:induction false} RunInv(s: State, steps: seq<Step>, s': State)
    requires Inv(s) && Run(s, steps, s')
    ensures Inv(s')
    decreases |steps|
  {
    if steps != [] {
      StepInv(s, steps[0]);
      RunInv(Next(s, steps[0]), steps[1..], s');
    }
  }

  // ---- Safety over every run ----

  /** `work` never runs concurrently with itself, whatever the executor's size. */
  lemma WorkIsExclusive(steps: seq<Step>, s: State, t: nat, u: nat)
    requires Run(INITIAL, steps, s)
    requires t in s.tasks && u in s.tasks && s.tasks[t] == AtWork && s.tasks[u] == AtWork
    ensures t == u
  {
    InitialInv();
    RunInv(INITIAL, steps, s);
    if t != u { CountAtMostOne(s.tasks, t, u, OWNING); }
  }

  predicate Quiescent(s: State) {
    s.callers == map[] && s.tasks == map[] && s.flags.queued == 0
  }

  ghost predicate EveryRequestServed(trace: seq<Mark>) {
    forall i :: 0 <= i < |trace| && trace[i] == Requested ==>
      exists j :: i < j < |trace| && trace[j] == RunStarted
  }

  lemma QuiescentServed(s: State)
    requires Inv(s) && Quiescent(s)
    ensures !s.flags.pending && !s.flags.inFlight && EveryRequestServed(s.flags.trace)
  {
    assert Among(map[], OWNING) == {};
    var trace := s.flags.trace;
    forall i | 0 <= i < |trace| && trace[i] == Requested
      ensures exists j :: i < j < |trace| && trace[j] == RunStarted
    {
      assert trace[|trace| - 1] == RunStarted;
    }
  }

  /** No wakeup is lost: once every thread is idle, both flags are down and every request is
      followed in the trace by a run that started after it. */
  lemma NoLostWakeup(steps: seq<Step>, s: State)
    requires Run(INITIAL, steps, s) && Quiescent(s)
    ensures !s.flags.pending && !s.flags.inFlight && EveryRequestServed(s.flags.trace)
  {
    InitialInv();
    RunInv(INITIAL, steps, s);
    QuiescentServed(s);
  }

  // ---- Settling on a single-threaded executor ----

  /** A submitted task starts only when the executor's one thread is free. */
  predicate SingleThreaded(s: State, step: Step) {
    step.Start? ==> s.tasks == map[]
  }

  ghost predicate SingleRun(s: State, steps: seq<Step>, s': State)
    decreases |steps|
  {
    if steps == [] then s == s'
    else
      && Enabled(s, steps[0]) && SingleThreaded(s, steps[0])
      && SingleRun(Next(s, steps[0]), steps[1..], s')
  }

  predicate NoCalls(steps: seq<Step>) {
    forall i :: 0 <= i < |steps| ==> !steps[i].Call?
  }

  ghost predicate AtMostOneTask(s: State) {
    forall t, u :: t in s.tasks && u in s.tasks ==> t == u
  }

  /** With one executor thread nobody else can take `pending` between the check and the re-request. */
  ghost predicate ReRequestKeepsPending(s: State) {
    forall t :: t in s.tasks && s.tasks[t] in {AtSet, AtCas, AtExecute} ==> s.flags.pending
  }

  ghost predicate SingleInv(s: State) {
    Inv(s) && AtMostOneTask(s) && ReRequestKeepsPending(s)
  }

  function Weight(pending: bool, pc: Pc): nat {
    match pc
    case AtWork => 10
    case AtClear => if pending then 8 else 7
    case AtCheck => if pending then 7 else 6
    case AtSet => 6
    case AtCas => 5
    case AtExecute => 4
    case AtDrain => if pending then 2 else 8
  }

  function QueueWeight(pending: bool): nat {
    if pending then 3 else 9
  }

  ghost function TaskWeight(s: State): nat {
    if t :| t in s.tasks then Weight(s.flags.pending, s.tasks[t]) else 0
  }

  /** Bounds the number of steps left when nobody calls any more. */
  ghost function Measure(s: State): nat {
    100 * ((if s.flags.pending then 1 else 0) + 2 * Count(s.callers, {AtSet}))
    + 12 * (2 * Count(s.callers, {AtCas}) + Count(s.callers, {AtExecute}))
    + QueueWeight(s.flags.pending) * s.flags.queued
    + TaskWeight(s)
  }

  lemma CallerSettles(s: State, t: nat)
    requires SingleInv(s) && t in s.callers
    ensures SingleInv(Next(s, Caller(t))) && Measure(Next(s, Caller(t))) < Measure(s)
  {
    StepInv(s, Caller(t));
    var p := Advance(s.flags, s.callers[t], false).1;
    CountPut(s.callers, t, p, {AtSet});
    CountPut(s.callers, t, p, {AtCas});
    CountPut(s.callers, t, p, {AtExecute});
    assert Next(s, Caller(t)).tasks == s.tasks;
  }

  lemma TaskWeightOf(s: State, t: nat)
    requires AtMostOneTask(s) && t in s.tasks
    ensures TaskWeight(s) == Weight(s.flags.pending, s.tasks[t])
  {}

  lemma TaskKeepsSingle(s: State, t: nat, throws: bool, s': State)
    requires SingleInv(s) && t in s.tasks && s' == Next(s, Task(t, throws))
    ensures SingleInv(s')
  {
    StepInv(s, Task(t, throws));
  }

  lemma TaskSettles(s: State, t: nat, throws: bool)
    requires SingleInv(s) && t in s.tasks
    ensures SingleInv(Next(s, Task(t, throws))) && Measure(Next(s, Task(t, throws))) < Measure(s)
  {
    var s' := Next(s, Task(t, throws));
    TaskKeepsSingle(s, t, throws, s');
    TaskWeightOf(s, t);
    if s.tasks[t] in OWNING { CountPositive(s.tasks, t, OWNING); }
    TaskSettlesBy(s, t, throws, s');
  }

  lemma TaskSettlesBy(s: State, t: nat, throws: bool, s': State)
    requires AtMostOneTask(s) && t in s.tasks && s' == Next(s, Task(t, throws))
    requires TaskWeight(s) == Weight(s.flags.pending, s.tasks[t])
    requires s.tasks[t] in OWNING ==> s.flags.queued == 0
    requires s.tasks[t] in {AtSet, AtCas, AtExecute} ==> s.flags.pending
    ensures Measure(s') < Measure(s)
  {
    if Advance(s.flags, s.tasks[t], throws).1.Left? {
      assert s'.tasks == map[];
    } else {
      TaskWeightOf(s', t);
    }
  }

  lemma SettlingStep(s: State, step: Step)
    requires SingleInv(s) && Enabled(s, step) && SingleThreaded(s, step) && !step.Call?
    ensures SingleInv(Next(s, step)) && Measure(Next(s, step)) < Measure(s)
  {
    match step
    case Caller(t) => CallerSettles(s, t);
    case Task(t, throws) => TaskSettles(s, t, throws);
    case Start(t) =>
      StepInv(s, step);
      assert Next(s, step).tasks == map[t := AtDrain];
  }

  lemma SingleStepInv(s: State, step: Step)
    requires SingleInv(s) && Enabled(s, step) && SingleThreaded(s, step)
    ensures SingleInv(Next(s, step))
  {
    if step.Call? { StepInv(s, step); } else { SettlingStep(s, step); }
  }

  lemma {:induction false} SingleRunInv(s: State, steps: seq<Step>, s': State)
    requires SingleInv(s) && SingleRun(s, steps, s')
    ensures SingleInv(s')
    decreases |steps|
  {
    if steps != [] {
      SingleStepInv(s, steps[0]);
      SingleRunInv(Next(s, steps[0]), steps[1..], s');
    }
  }

  lemma {:induction false} SettlesWithin(s: State, steps: seq<Step>, s': State)
    requires SingleInv(s) && SingleRun(s, steps, s') && NoCalls(steps)
    ensures |steps| + Measure(s') <= Measure(s)
    decreases |steps|
  {
    if steps != [] {
      SettlingStep(s, steps[0]);
      SettlesWithin(Next(s, steps[0]), steps[1..], s');
    }
  }

  /** Nothing gets stuck: short of quiescence some thread can always take a step. */
  lemma NeverStuck(s: State)
    requires !Quiescent(s)
    ensures exists step :: Enabled(s, step) && SingleThreaded(s, step) && !step.Call?
  {
    if s.callers != map[] {
      var t :| t in s.callers;
      assert Enabled(s, Caller(t)) && SingleThreaded(s, Caller(t));
    } else if s.tasks != map[] {
      var t :| t in s.tasks;
      assert Enabled(s, Task(t, false)) && SingleThreaded(s, Task(t, false));
    } else {
      assert Enabled(s, Start(0)) && SingleThreaded(s, Start(0));
    }
  }

  /** On the player's executors, whatever happened before: when calls stop, every schedule of the
      remaining threads ends within `Measure` steps, and where it ends every request was served. */
  lemma RequestsAreServed(steps: seq<Step>, s: State, rest: seq<Step>, s': State)
    requires SingleRun(INITIAL, steps, s) && SingleRun(s, rest, s') && NoCalls(rest)
    ensures |rest| <= Measure(s)
    ensures (forall step :: Enabled(s', step) && SingleThreaded(s', step) ==> step.Call?)
            ==> Quiescent(s') && !s'.flags.pending && EveryRequestServed(s'.flags.trace)
  {
    InitialInv();
    SingleRunInv(INITIAL, steps, s);
    SettlesWithin(s, rest, s');
    SingleRunInv(s, rest, s');
    if Quiescent(s') { QuiescentServed(s'); } else { NeverStuck(s'); }
  }
}
