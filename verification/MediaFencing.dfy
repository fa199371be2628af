/** Processing of one media asset by any number of workers that may crash, outlive their lease or
    race with archival. One database transaction or one storage operation is one step.

    Object names contain the asset id and the processing token, so the objects of two assets never
    meet and one asset is a machine of its own. */
module MediaFencing {
  import opened Options

  const LEASE_SECONDS := 1800

  datatype Status = Quarantined | Processing | Ready | Rejected | Archived

  /** `Normalized(token)` is the object a worker stores under its processing token. */
  datatype Name = Normalized(token: nat) | Earlier(tag: nat)

  datatype Row = Row(
    status: Status,
    token: Option<nat>,
    leaseExpiresAt: Option<nat>,
    attempts: nat,
    normalizedFile: Option<Name>)

  // ---- The transactions on the row ----

  predicate LeaseExpired(r: Row, now: nat) {
    r.leaseExpiresAt.None? || r.leaseExpiresAt.value <= now
  }

  predicate Claimable(r: Row, now: nat) {
    r.status.Quarantined? || (r.status.Processing? && LeaseExpired(r, now))
  }

  function Claimed(r: Row, now: nat, token: nat): Row {
    if Claimable(r, now)
    then Row(Processing, Some(token), Some(now + LEASE_SECONDS), r.attempts + 1, r.normalizedFile)
    else r
  }

  predicate MayFinalize(r: Row, token: nat) {
    r.status.Processing? && r.token == Some(token)
  }

  /** `staged` is the object of an accepted file; a rejected one has none. */
  function Finalized(r: Row, token: nat, staged: Option<Name>): Row {
    if !MayFinalize(r, token) then r
    else if staged.Some? then Row(Ready, None, None, r.attempts, staged)
    else Row(Rejected, None, None, r.attempts, r.normalizedFile)
  }

  function Recovered(r: Row, now: nat): Row {
    if r.status.Processing? && LeaseExpired(r, now)
    then Row(Quarantined, None, None, r.attempts, r.normalizedFile)
    else r
  }

  function ArchivedRow(r: Row): Row {
    Row(Archived, None, None, r.attempts, r.normalizedFile)
  }

  /** The stored row. Each method is the body of one transaction under the row lock. */
  class MediaAsset {
    var status: Status
    var token: Option<nat>
    var leaseExpiresAt: Option<nat>
    var attempts: nat
    var normalizedFile: Option<Name>

    function View(): Row
      reads this
    {
      Row(status, token, leaseExpiresAt, attempts, normalizedFile)
    }

    constructor ()
      ensures View() == Row(Quarantined, None, None, 0, None)
    {
      status, token, leaseExpiresAt, attempts, normalizedFile := Quarantined, None, None, 0, None;
    }

    method Claim(now: nat, freshToken: nat) returns (claimed: bool)
      modifies this
      ensures claimed == old(status.Quarantined? ||
                             (status.Processing? && (leaseExpiresAt.None? || leaseExpiresAt.value <= now)))
      ensures claimed ==>
                && status.Processing? && token == Some(freshToken) && leaseExpiresAt == Some(now + 1800)
                && attempts == old(attempts) + 1 && normalizedFile == old(normalizedFile)
      ensures !claimed ==> unchanged(this)
      ensures View() == old(Claimed(View(), now, freshToken))
    {
      if status == Processing {
        if leaseExpiresAt.Some? && leaseExpiresAt.value > now { return false; }
      } else if status != Quarantined {
        return false;
      }
      status := Processing;
      attempts := attempts + 1;
      token := Some(freshToken);
      leaseExpiresAt := Some(now + LEASE_SECONDS);
      claimed := true;
    }

    /** `superseded` is the object to delete once the transaction has committed. */
    method Finalize(workerToken: nat, staged: Option<Name>) returns (finalized: bool, superseded: Option<Name>)
      modifies this
      ensures finalized == old(status.Processing? && token == Some(workerToken))
      ensures finalized ==>
                && status == (if staged.Some? then Ready else Rejected) && token.None? && leaseExpiresAt.None?
                && attempts == old(attempts) && normalizedFile == (if staged.Some? then staged else old(normalizedFile))
      ensures !finalized ==> unchanged(this)
      ensures superseded == if finalized && normalizedFile != old(normalizedFile) then old(normalizedFile) else None
      ensures View() == old(Finalized(View(), workerToken, staged))
    {
      if status != Processing || token != Some(workerToken) { return false, None; }
      var previous := normalizedFile;
      status := if staged.Some? then Ready else Rejected;
      if staged.Some? { normalizedFile := staged; }
      token := None;
      leaseExpiresAt := None;
      finalized := true;
      superseded := if previous.Some? && staged.Some? && previous != staged then previous else None;
    }

    method RecoverExpiredLease(now: nat) returns (recovered: bool)
      modifies this
      ensures recovered == old(status.Processing? && (leaseExpiresAt.None? || leaseExpiresAt.value <= now))
      ensures recovered ==>
                && status.Quarantined? && token.None? && leaseExpiresAt.None?
                && attempts == old(attempts) && normalizedFile == old(normalizedFile)
      ensures !recovered ==> unchanged(this)
      ensures View() == old(Recovered(View(), now))
    {
      if status != Processing { return false; }
      if leaseExpiresAt.Some? && leaseExpiresAt.value > now { return false; }
      status := Quarantined;
      token := None;
      leaseExpiresAt := None;
      recovered := true;
    }

    method Archive()
      modifies this
      ensures status.Archived? && token.None? && leaseExpiresAt.None?
      ensures attempts == old(attempts) && normalizedFile == old(normalizedFile)
      ensures View() == old(ArchivedRow(View()))
    {
      status := Archived;
      token := None;
      leaseExpiresAt := None;
    }
  }

  function SupersededName(r: Row, staged: Option<Name>): Option<Name> {
    if r.normalizedFile.Some? && staged.Some? && r.normalizedFile != staged then r.normalizedFile else None
  }

  // ---- The protocol ----

  /** Program points of `inspect_media` after the claim. */
  datatype Pc =
    | Inspecting
    | Stored
    | Withdrawing
    | Finalizing(accepted: bool)
    | Losing
    | Committed(superseded: Name)

  datatype Worker = Worker(token: nat, pc: Pc)

  datatype Deletion = Deletion(name: Option<Name>, completed: bool)

  /** `issued`, `winner` and `orphans` are history: tokens handed out, the token that finalized, and
      objects whose worker died before removing them. */
  datatype State = State(
    now: nat,
    row: Row,
    storage: set<Name>,
    workers: map<nat, Worker>,
    deletion: Option<Deletion>,
    deleters: map<nat, bool>,
    issued: set<nat>,
    winner: Option<nat>,
    finalizations: nat,
    orphans: set<Name>)

  datatype Step =
    | Tick(seconds: nat)
    | Claim(worker: nat, token: nat)
    | Store(worker: nat)
    | Accept(worker: nat)
    | Reject(worker: nat)
    | Withdraw(worker: nat)
    | Finalize(worker: nat)
    | CleanUp(worker: nat)
    | DeleteSuperseded(worker: nat)
    | Crash(worker: nat)
    | Recover
    | Archive
    | BeginDeletion(deleter: nat)
    | DeleteObject(deleter: nat)
    | CompleteDeletion(deleter: nat)
    | AbandonDeletion(deleter: nat)

  predicate At(s: State, w: nat, pc: Pc) {
    w in s.workers && s.workers[w].pc == pc
  }

  predicate Enabled(s: State, step: Step) {
    match step
    case Tick(_) => true
    case Claim(w, t) => w !in s.workers && t !in s.issued && Claimable(s.row, s.now)
    case Store(w) => At(s, w, Inspecting)
    case Accept(w) => At(s, w, Stored)
    case Reject(w) => At(s, w, Inspecting) || At(s, w, Stored)
    case Withdraw(w) => At(s, w, Withdrawing)
    case Finalize(w) => w in s.workers && s.workers[w].pc.Finalizing?
    case CleanUp(w) => At(s, w, Losing)
    case DeleteSuperseded(w) => w in s.workers && s.workers[w].pc.Committed?
    case Crash(w) => w in s.workers
    case Recover => true
    case Archive => true
    case BeginDeletion(d) => d !in s.deleters && s.deletion.Some? && !s.deletion.value.completed
    case DeleteObject(d) => d in s.deleters && !s.deleters[d] && s.deletion.Some?
    case CompleteDeletion(d) => d in s.deleters && s.deleters[d] && s.deletion.Some?
    case AbandonDeletion(d) => d in s.deleters
  }

  function Move(s: State, w: nat, pc: Pc): State
    requires w in s.workers
  {
    s.(workers := s.workers[w := s.workers[w].(pc := pc)])
  }

  /** The objects only this worker is going to remove. */
  function Owned(worker: Worker): set<Name> {
    match worker.pc
    case Inspecting => {}
    case Stored => {Normalized(worker.token)}
    case Withdrawing => {Normalized(worker.token)}
    case Finalizing(accepted) => if accepted then {Normalized(worker.token)} else {}
    case Losing => {Normalized(worker.token)}
    case Committed(name) => {name}
  }

  function StagedName(worker: Worker): Option<Name> {
    if worker.pc.Finalizing? && worker.pc.accepted then Some(Normalized(worker.token)) else None
  }

  function FinalizeStep(s: State, w: nat): State
    requires w in s.workers && s.workers[w].pc.Finalizing?
  {
    var worker := s.workers[w];
    var staged := StagedName(worker);
    if MayFinalize(s.row, worker.token) then
      var superseded := SupersededName(s.row, staged);
      s.(row := Finalized(s.row, worker.token, staged),
         winner := Some(worker.token),
         finalizations := s.finalizations + 1,
         workers := if superseded.Some? then s.workers[w := Worker(worker.token, Committed(superseded.value))]
                    else s.workers - {w})
    else if staged.Some? then Move(s, w, Losing)
    else s.(workers := s.workers - {w})
  }

  /** An archival that repeats keeps the names the first one recorded. */
  function ArchiveStep(s: State): State {
    s.(row := ArchivedRow(s.row),
       deletion := if s.deletion.Some? then s.deletion else Some(Deletion(s.row.normalizedFile, false)))
  }

  function Removed(storage: set<Name>, name: Option<Name>): set<Name> {
    if name.Some? then storage - {name.value} else storage
  }

  function CompleteStep(s: State, d: nat): State
    requires s.deletion.Some?
  {
    var deletion := s.deletion.value;
    var done := s.(deleters := s.deleters - {d});
    if deletion.completed then done
    else
      done.(row := s.row.(normalizedFile :=
              if s.row.normalizedFile == deletion.name then None else s.row.normalizedFile),
            deletion := Some(deletion.(completed := true)))
  }

  function Next(s: State, step: Step): State
    requires Enabled(s, step)
  {
    match step
    case Tick(d) => s.(now := s.now + d)
    case Claim(w, t) =>
      s.(row := Claimed(s.row, s.now, t), workers := s.workers[w := Worker(t, Inspecting)], issued := s.issued + {t})
    case Store(w) => Move(s, w, Stored).(storage := s.storage + {Normalized(s.workers[w].token)})
    case Accept(w) => Move(s, w, Finalizing(true))
    case Reject(w) => Move(s, w, if s.workers[w].pc.Stored? then Withdrawing else Finalizing(false))
    case Withdraw(w) => Move(s, w, Finalizing(false)).(storage := s.storage - {Normalized(s.workers[w].token)})
    case Finalize(w) => FinalizeStep(s, w)
    case CleanUp(w) => s.(storage := s.storage - {Normalized(s.workers[w].token)}, workers := s.workers - {w})
    case DeleteSuperseded(w) =>
      s.(storage := s.storage - {s.workers[w].pc.superseded}, workers := s.workers - {w})
    case Crash(w) => s.(workers := s.workers - {w}, orphans := s.orphans + Owned(s.workers[w]))
    case Recover => s.(row := Recovered(s.row, s.now))
    case Archive => ArchiveStep(s)
    case BeginDeletion(d) => s.(deleters := s.deleters[d := false])
    case DeleteObject(d) =>
      s.(storage := Removed(s.storage, s.deletion.value.name), deleters := s.deleters[d := true])
    case CompleteDeletion(d) => CompleteStep(s, d)
    case AbandonDeletion(d) => s.(deleters := s.deleters - {d})
  }

  /** An uploaded asset, possibly with an object from before this processing. */
  ghost predicate Initial(s: State) {
    && s.row.status.Quarantined? && s.row.token.None?
    && (s.row.normalizedFile.Some? ==> s.row.normalizedFile.value.Earlier?)
    && s.storage == (if s.row.normalizedFile.Some? then {s.row.normalizedFile.value} else {})
    && s.workers == map[] && s.deletion.None? && s.deleters == map[]
    && s.issued == {} && s.winner.None? && s.finalizations == 0 && s.orphans == {}
  }

  ghost predicate Run(s: State, steps: seq<Step>, s': State)
    decreases |steps|
  {
    if steps == [] then s == s'
    else Enabled(s, steps[0]) && Run(Next(s, steps[0]), steps[1..], s')
  }

  // ---- The invariant ----

  ghost predicate TokensFresh(s: State) {
    && (forall w :: w in s.workers ==> s.workers[w].token in s.issued)
    && (forall v, w :: v in s.workers && w in s.workers && s.workers[v].token == s.workers[w].token ==> v == w)
    && (s.row.token.Some? ==> s.row.token.value in s.issued)
    && (s.winner.Some? ==> s.winner.value in s.issued && s.row.token != s.winner)
  }

  ghost predicate AtMostOneWinner(s: State) {
    && s.finalizations == (if s.winner.Some? then 1 else 0)
    && (s.row.status.Quarantined? || s.row.status.Processing? ==> s.winner.None?)
    && (s.row.status.Ready? || s.row.status.Rejected? ==> s.winner.Some?)
    && (s.row.status.Processing? <==> s.row.token.Some?)
    && (s.deletion.Some? ==> s.row.status.Archived?)
    && (s.deletion.None? ==> s.deleters == map[])
  }

  /** The winner is past its commit; everybody else still owns what it stored. */
  ghost predicate WorkersSound(s: State) {
    forall w :: w in s.workers ==>
      if s.workers[w].pc.Committed? then
        s.winner == Some(s.workers[w].token) && s.workers[w].pc.superseded.Earlier?
      else
        s.winner != Some(s.workers[w].token) && Owned(s.workers[w]) <= s.storage
  }

  /** An object named by the row or by a deletion is the winner's or an earlier one. */
  ghost predicate NamedByWinner(s: State, name: Option<Name>) {
    name.Some? && name.value.Normalized? ==> s.winner == Some(name.value.token)
  }

  ghost predicate NamesSound(s: State) {
    && NamedByWinner(s, s.row.normalizedFile)
    && (s.deletion.Some? ==> NamedByWinner(s, s.deletion.value.name))
    && (s.row.status.Ready? ==>
          && s.winner.Some? && s.row.normalizedFile == Some(Normalized(s.winner.value))
          && s.row.normalizedFile.value in s.storage)
  }

  ghost predicate DeletionSound(s: State) {
    s.deletion.Some? ==>
      && (s.row.normalizedFile == s.deletion.value.name || s.row.normalizedFile.None?)
      && (forall d :: d in s.deleters && s.deleters[d] && s.deletion.value.name.Some? ==>
            s.deletion.value.name.value !in s.storage)
      && (s.deletion.value.completed ==>
            s.row.normalizedFile.None? && (s.deletion.value.name.Some? ==> s.deletion.value.name.value !in s.storage))
  }

  /** Every stored object is the row's, some worker's, or was orphaned by a crash. */
  ghost predicate Accounted(s: State, name: Name) {
    || s.row.normalizedFile == Some(name)
    || (exists w :: w in s.workers && name in Owned(s.workers[w]))
    || name in s.orphans
  }

  ghost predicate NothingLeaks(s: State) {
    forall name :: name in s.storage ==> Accounted(s, name)
  }

  ghost predicate Safe(s: State) {
    TokensFresh(s) && AtMostOneWinner(s) && WorkersSound(s) && NamesSound(s) && DeletionSound(s)
  }

  ghost predicate Inv(s: State) {
    Safe(s) && NothingLeaks(s)
  }

  lemma InitialInv(s: State)
    requires Initial(s)
    ensures Inv(s)
  {}

  lemma RowStepSafe(s: State, step: Step)
    requires Safe(s) && Enabled(s, step) && (step.Tick? || step.Claim? || step.Recover? || step.Archive?)
    ensures Safe(Next(s, step))
  {}

  lemma StorageStepSafe(s: State, step: Step)
    requires Safe(s) && Enabled(s, step) && (step.Store? || step.Withdraw?)
    ensures Safe(Next(s, step))
  {
    var w := step.worker;
    assert forall v :: v in s.workers && v != w ==> s.workers[v].token != s.workers[w].token;
  }

  /** A worker that moves on with its token, owning no more than before. */
  lemma MoveSafe(s: State, w: nat, pc: Pc, s': State)
    requires Safe(s) && w in s.workers && s' == Move(s, w, pc) && !s.workers[w].pc.Committed? && !pc.Committed?
    requires Owned(Worker(s.workers[w].token, pc)) <= Owned(s.workers[w])
    ensures Safe(s')
  {
    WorkersOnly(s, s');
  }

  lemma WorkersOnly(s: State, s': State)
    requires Safe(s) && s' == s.(workers := s'.workers)
    ensures AtMostOneWinner(s') && NamesSound(s') && DeletionSound(s')
  {}

  lemma VerdictStepSafe(s: State, step: Step)
    requires Safe(s) && Enabled(s, step) && (step.Accept? || step.Reject?)
    ensures Safe(Next(s, step))
  {
    var s' := Next(s, step);
    MoveSafe(s, step.worker, s'.workers[step.worker].pc, s');
  }

  lemma FinalizeSafe(s: State, w: nat)
    requires Safe(s) && Enabled(s, Finalize(w))
    ensures Safe(FinalizeStep(s, w))
  {
    var s' := FinalizeStep(s, w);
    if MayFinalize(s.row, s.workers[w].token) {
      WinSafe(s, w, s');
    } else if s.workers[w].pc.accepted {
      MoveSafe(s, w, Losing, s');
    } else {
      WorkersOnly(s, s');
    }
  }

  lemma WinSafe(s: State, w: nat, s': State)
    requires Safe(s) && Enabled(s, Finalize(w)) && s' == FinalizeStep(s, w)
    requires MayFinalize(s.row, s.workers[w].token)
    ensures Safe(s')
  {}

  lemma LeaveSafe(s: State, step: Step)
    requires Safe(s) && Enabled(s, step) && (step.CleanUp? || step.DeleteSuperseded? || step.Crash?)
    ensures Safe(Next(s, step))
  {
    var w := step.worker;
    assert forall v :: v in s.workers && v != w ==> s.workers[v].token != s.workers[w].token;
  }

  lemma DeletionStepSafe(s: State, step: Step)
    requires Safe(s) && Enabled(s, step)
    requires step.BeginDeletion? || step.DeleteObject? || step.CompleteDeletion? || step.AbandonDeletion?
    ensures Safe(Next(s, step))
  {}

  lemma StepSafe(s: State, step: Step)
    requires Safe(s) && Enabled(s, step)
    ensures Safe(Next(s, step))
  {
    match step
    case Store(_) => StorageStepSafe(s, step);
    case Withdraw(_) => StorageStepSafe(s, step);
    case Accept(_) => VerdictStepSafe(s, step);
    case Reject(_) => VerdictStepSafe(s, step);
    case Finalize(w) => FinalizeSafe(s, w);
    case CleanUp(_) => LeaveSafe(s, step);
    case DeleteSuperseded(_) => LeaveSafe(s, step);
    case Crash(_) => LeaveSafe(s, step);
    case BeginDeletion(_) => DeletionStepSafe(s, step);
    case DeleteObject(_) => DeletionStepSafe(s, step);
    case CompleteDeletion(_) => DeletionStepSafe(s, step);
    case AbandonDeletion(_) => DeletionStepSafe(s, step);
    case _ => RowStepSafe(s, step);
  }

  /** What stays in storage and stays accounted for stays accounted for after the step. */
  lemma StepAccounts(s: State, step: Step, name: Name)
    requires Inv(s) && Enabled(s, step) && name in Next(s, step).storage
    ensures Accounted(Next(s, step), name)
  {
    var s' := Next(s, step);
    if step.Store? && name == Normalized(s.workers[step.worker].token) {
      assert name in Owned(s'.workers[step.worker]);
    } else {
      assert Accounted(s, name);
      if s.row.normalizedFile == Some(name) {
        if step.Finalize? && s'.row.normalizedFile != Some(name) {
          assert name in Owned(s'.workers[step.worker]);
        }
      } else if name !in s.orphans {
        var w :| w in s.workers && name in Owned(s.workers[w]);
        OwnerKeeps(s, step, w, name);
      }
    }
  }

  lemma OwnerKeeps(s: State, step: Step, w: nat, name: Name)
    requires Inv(s) && Enabled(s, step) && name in Next(s, step).storage
    requires w in s.workers && name in Owned(s.workers[w])
    ensures Accounted(Next(s, step), name)
  {
    if step.Finalize? && step.worker == w {
      FinalizeAccounts(s, w, name);
    } else if !(step.Crash? && step.worker == w) {
      OtherStepKeepsOwner(s, step, w, name);
    }
  }

  lemma OtherStepKeepsOwner(s: State, step: Step, w: nat, name: Name)
    requires Safe(s) && Enabled(s, step) && name in Next(s, step).storage
    requires w in s.workers && name in Owned(s.workers[w])
    requires step.Finalize? || step.Crash? ==> step.worker != w
    ensures w in Next(s, step).workers && name in Owned(Next(s, step).workers[w])
  {
    if IsOf(step, w) {
      assert step.Store? || step.Accept? || step.Reject? || step.Withdraw? || step.CleanUp? || step.DeleteSuperseded?;
    } else {
      OthersUnmoved(s, step, w);
    }
  }

  /** The step is one of worker `w` after its claim. */
  predicate IsOf(step: Step, w: nat) {
    && (step.Store? || step.Accept? || step.Reject? || step.Withdraw? || step.Finalize? || step.CleanUp?
        || step.DeleteSuperseded? || step.Crash?)
    && step.worker == w
  }

  lemma OthersUnmoved(s: State, step: Step, w: nat)
    requires Enabled(s, step) && w in s.workers && !IsOf(step, w)
    ensures w in Next(s, step).workers && Next(s, step).workers[w] == s.workers[w]
  {}

  lemma FinalizeAccounts(s: State, w: nat, name: Name)
    requires Safe(s) && Enabled(s, Finalize(w)) && name in Owned(s.workers[w])
    ensures Accounted(FinalizeStep(s, w), name)
  {
    var s' := FinalizeStep(s, w);
    if !MayFinalize(s.row, s.workers[w].token) {
      assert name in Owned(s'.workers[w]);
    }
  }

  lemma StepInv(s: State, step: Step)
    requires Inv(s) && Enabled(s, step)
    ensures Inv(Next(s, step))
  {
    StepSafe(s, step);
    forall name | name in Next(s, step).storage ensures Accounted(Next(s, step), name) {
      StepAccounts(s, step, name);
    }
  }

  lemma {:induction false} RunInv(s: State, steps: seq<Step>, s': State)
    requires Inv(s) && Run(s, steps, s')
    ensures Inv(s')
    decreases |steps|
  {
    if steps != [] {
      StepInv(s, steps[0]);
      RunInv(Next(s, steps[0]), steps[1..], s');
    }
  }

  // ---- What every run guarantees ----

  /** An asset is finalized at most once in its life, and while it is READY the object its row names
      is in storage, whatever losing workers, late commits and deletions do. */
  lemma FinalizedOnceAndDeliverable(s0: State, steps: seq<Step>, s: State)
    requires Initial(s0) && Run(s0, steps, s)
    ensures s.finalizations <= 1
    ensures s.row.status.Ready? ==> s.row.normalizedFile.Some? && s.row.normalizedFile.value in s.storage
  {
    InitialInv(s0);
    RunInv(s0, steps, s);
  }

  /** A token that was handed out and is no longer the row's. */
  predicate Superseded(s: State, token: nat) {
    token in s.issued && s.row.token != Some(token)
  }

  lemma {:induction false} SupersededForever(s: State, steps: seq<Step>, s': State, token: nat)
    requires Run(s, steps, s') && Superseded(s, token)
    ensures Superseded(s', token)
    decreases |steps|
  {
    if steps != [] {
      SupersededForever(Next(s, steps[0]), steps[1..], s', token);
    }
  }

  /** Fencing: once a worker's token is superseded, nothing it does in any continuation changes the
      row or removes the object the row names. */
  lemma SupersededWorkerIsHarmless(s0: State, before: seq<Step>, s: State, after: seq<Step>, s': State, step: Step)
    requires Initial(s0) && Run(s0, before, s) && Run(s, after, s') && Enabled(s', step)
    requires step.Store? || step.Accept? || step.Reject? || step.Withdraw? || step.Finalize? || step.CleanUp?
    requires Superseded(s, s'.workers[step.worker].token)
    ensures Next(s', step).row == s'.row
    ensures s'.row.normalizedFile.Some? && s'.row.normalizedFile.value in s'.storage ==>
              s'.row.normalizedFile.value in Next(s', step).storage
  {
    InitialInv(s0);
    RunInv(s0, before, s);
    RunInv(s, after, s');
    SupersededForever(s, after, s', s'.workers[step.worker].token);
  }

  /** The recovery of an expired lease frees the asset: any new worker may claim it, and the worker
      that held the lease changes nothing any more, in whatever comes after. */
  lemma RecoveryFrees(s0: State, before: seq<Step>, s: State, after: seq<Step>, s': State, held: nat)
    requires Initial(s0) && Run(s0, before, s) && Run(Next(s, Recover), after, s')
    requires s.row.token == Some(held) && (s.row.leaseExpiresAt.None? || s.row.leaseExpiresAt.value <= s.now)
    ensures forall w, t :: w !in s.workers && t !in s.issued ==> Enabled(Next(s, Recover), Claim(w, t))
    ensures forall w :: w in s'.workers && s'.workers[w].token == held && s'.workers[w].pc.Finalizing? ==>
              Next(s', Finalize(w)).row == s'.row
  {
    InitialInv(s0);
    RunInv(s0, before, s);
    SupersededForever(Next(s, Recover), after, s', held);
  }

  lemma FreshNat(used: set<nat>) returns (n: nat)
    ensures n !in used && forall u :: u in used ==> u < n
  {
    if used == {} {
      n := 0;
    } else {
      var u :| u in used;
      var m := FreshNat(used - {u});
      n := if u < m then m else u + 1;
      assert forall v :: v in used ==> v == u || v in used - {u};
    }
  }

  lemma {:induction false} Chained(s: State, first: Step, rest: seq<Step>, s': State)
    requires Enabled(s, first) && Run(Next(s, first), rest, s')
    ensures Run(s, [first] + rest, s')
  {
    assert ([first] + rest)[1..] == rest;
  }

  /** A worker with a fresh token that nobody disturbs. */
  lemma UndisturbedWorker(s: State, w: nat, t: nat, accepted: bool) returns (steps: seq<Step>, s': State)
    requires s.row.status.Quarantined? && w !in s.workers && t !in s.issued
    ensures Run(s, steps, s')
    ensures if accepted
            then s'.row.status.Ready? && s'.row.normalizedFile == Some(Normalized(t)) && Normalized(t) in s'.storage
            else s'.row.status.Rejected? && s'.row.normalizedFile == s.row.normalizedFile
  {
    var s1 := Next(s, Claim(w, t));
    if accepted {
      var s2 := Next(s1, Store(w));
      var s3 := Next(s2, Accept(w));
      s' := Next(s3, Finalize(w));
      Chained(s3, Finalize(w), [], s');
      Chained(s2, Accept(w), [Finalize(w)], s');
      Chained(s1, Store(w), [Accept(w)] + [Finalize(w)], s');
      steps := [Claim(w, t)] + ([Store(w)] + ([Accept(w)] + [Finalize(w)]));
    } else {
      var s2 := Next(s1, Reject(w));
      s' := Next(s2, Finalize(w));
      Chained(s2, Finalize(w), [], s');
      Chained(s1, Reject(w), [Finalize(w)], s');
      steps := [Claim(w, t)] + ([Reject(w)] + [Finalize(w)]);
    }
    Chained(s, Claim(w, t), steps[1..], s');
  }

  /** No asset is stuck: whatever crashed or lost its lease, an unfinished asset can still be finalized
      either way, at the latest once the lease has run out. */
  lemma CanBeFinalized(s0: State, before: seq<Step>, s: State, accepted: bool) returns (steps: seq<Step>, s': State)
    requires Initial(s0) && Run(s0, before, s) && (s.row.status.Quarantined? || s.row.status.Processing?)
    ensures Run(s, steps, s')
    ensures if accepted then s'.row.status.Ready? && s'.row.normalizedFile.Some? else s'.row.status.Rejected?
  {
    var seconds := if s.row.leaseExpiresAt.Some? then s.row.leaseExpiresAt.value else 0;
    var s1 := Next(s, Tick(seconds));
    var s2 := Next(s1, Recover);
    var w := FreshNat(s.workers.Keys);
    var t := FreshNat(s.issued);
    steps, s' := UndisturbedWorker(s2, w, t, accepted);
    Chained(s1, Recover, steps, s');
    Chained(s, Tick(seconds), [Recover] + steps, s');
    steps := [Tick(seconds)] + ([Recover] + steps);
  }

  lemma ErasingRun(s: State, d: nat) returns (s': State)
    requires DeletionSound(s) && d !in s.deleters && (s.deletion.Some? ==> !s.deletion.value.completed)
    ensures Run(s, [Archive, BeginDeletion(d), DeleteObject(d), CompleteDeletion(d)], s')
    ensures s'.row.status.Archived? && s'.row.normalizedFile.None?
    ensures s'.deletion.Some? && s'.deletion.value.completed
    ensures s.row.normalizedFile.Some? ==> s.row.normalizedFile.value !in s'.storage
  {
    var s1 := Next(s, Archive);
    var s2 := Next(s1, BeginDeletion(d));
    var s3 := Next(s2, DeleteObject(d));
    s' := Next(s3, CompleteDeletion(d));
    Chained(s3, CompleteDeletion(d), [], s');
    Chained(s2, DeleteObject(d), [CompleteDeletion(d)], s');
    Chained(s1, BeginDeletion(d), [DeleteObject(d), CompleteDeletion(d)], s');
    Chained(s, Archive, [BeginDeletion(d), DeleteObject(d), CompleteDeletion(d)], s');
  }

  /** An archived asset can always be erased: the row lets go of its object, which is gone. */
  lemma CanBeErased(s0: State, before: seq<Step>, s: State, d: nat) returns (s': State)
    requires Initial(s0) && Run(s0, before, s) && d !in s.deleters
    requires s.deletion.Some? ==> !s.deletion.value.completed
    ensures Run(s, [Archive, BeginDeletion(d), DeleteObject(d), CompleteDeletion(d)], s')
    ensures s'.row.status.Archived? && s'.row.normalizedFile.None?
    ensures s'.deletion.Some? && s'.deletion.value.completed
    ensures s.row.normalizedFile.Some? ==> s.row.normalizedFile.value !in s'.storage
  {
    InitialInv(s0);
    RunInv(s0, before, s);
    s' := ErasingRun(s, d);
  }

  /** In every reachable state a READY row never changes again until the asset is archived. */
  lemma ReadyIsStable(s0: State, before: seq<Step>, s: State, after: seq<Step>, s': State)
    requires Initial(s0) && Run(s0, before, s) && Run(s, after, s')
    requires s.row.status.Ready? || s.row.status.Archived?
    ensures s'.row.status.Archived? || s'.row == s.row
  {
    InitialInv(s0);
    RunInv(s0, before, s);
    ReadyStays(s, after, s');
  }

  lemma {:induction false} ReadyStays(s: State, steps: seq<Step>, s': State)
    requires Inv(s) && Run(s, steps, s') && (s.row.status.Ready? || s.row.status.Archived?)
    ensures s'.row.status.Archived? || s'.row == s.row
    decreases |steps|
  {
    if steps != [] {
      StepInv(s, steps[0]);
      var s1 := Next(s, steps[0]);
      assert s1.row.status.Archived? || s1.row == s.row;
      ReadyStays(s1, steps[1..], s');
    }
  }

  lemma {:induction false} OrphansComeFromCrashes(s: State, steps: seq<Step>, s': State)
    requires Run(s, steps, s') && forall i :: 0 <= i < |steps| ==> !steps[i].Crash?
    ensures s'.orphans == s.orphans
    decreases |steps|
  {
    if steps != [] {
      assert forall i :: 0 <= i < |steps[1..]| ==> steps[1..][i] == steps[i + 1];
      OrphansComeFromCrashes(Next(s, steps[0]), steps[1..], s');
    }
  }

  /** Without crashes nothing leaks: when the workers are gone storage holds at most the object the
      row names, and after a completed deletion it holds nothing. */
  lemma StorageIsReclaimed(s0: State, steps: seq<Step>, s: State)
    requires Initial(s0) && Run(s0, steps, s) && s.workers == map[]
    requires forall i :: 0 <= i < |steps| ==> !steps[i].Crash?
    ensures forall name :: name in s.storage ==> s.row.normalizedFile == Some(name)
    ensures s.deletion.Some? && s.deletion.value.completed ==> s.storage == {}
  {
    InitialInv(s0);
    RunInv(s0, steps, s);
    OrphansComeFromCrashes(s0, steps, s);
    assert forall name :: name in s.storage ==> Accounted(s, name);
  }
}
