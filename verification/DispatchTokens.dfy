/** Dispatch of one media asset to a one-off ECS task: the reservation of attempts, the client token
    that makes an ambiguous RunTask call repeatable, and the hourly budget.

    The client token is the asset id with the attempt number, so for one asset the attempt number is
    the token. RunTask itself is represented by its outcome. */
module DispatchTokens {
  import opened Options
  import opened FixedWindow

  /** Deployment settings; times are microseconds. */
  datatype Settings = Settings(maxAttempts: nat, retryDelay: nat, reuseWindow: nat, tasksPerHour: nat)

  const HOUR := 3600 * SECOND

  /** The limits under which the program issues calls at all. */
  predicate Accepted(c: Settings) {
    1 <= c.tasksPerHour <= 6 && SECOND <= c.reuseWindow <= HOUR
  }

  datatype Asset = Asset(
    quarantined: bool,
    dispatchAttempts: nat,
    lastDispatchAttemptAt: Option<nat>,
    dispatchedAt: Option<nat>)

  /** The idempotency marker of an issued call whose outcome is not known yet. */
  datatype Marker = Marker(attempts: nat, windowStartedAt: nat)

  /** The rows a reservation leaves and the attempt it hands out. */
  datatype Reserved = Reserved(asset: Asset, marker: Option<Marker>, attempt: Option<nat>)

  predicate BacksOff(c: Settings, a: Asset, now: nat) {
    a.lastDispatchAttemptAt.Some? && a.lastDispatchAttemptAt.value + c.retryDelay > now
  }

  /** The call repeats the token of an ambiguous one that is recent enough. */
  predicate Reuses(c: Settings, a: Asset, m: Option<Marker>, now: nat) {
    && m.Some? && m.value.attempts > 0 && m.value.attempts == a.dispatchAttempts
    && m.value.windowStartedAt + c.reuseWindow > now
  }

  /** A reservation for a failure that issues nothing. */
  function ReservedSilently(c: Settings, a: Asset, m: Option<Marker>, now: nat, bypass: bool): Reserved {
    if !a.quarantined || (!bypass && BacksOff(c, a, now)) || a.dispatchAttempts >= c.maxAttempts
    then Reserved(a, m, None)
    else
      var n := a.dispatchAttempts + 1;
      Reserved(a.(dispatchAttempts := n, lastDispatchAttemptAt := Some(now)), m, Some(n))
  }

  /** A reservation for a call about to be issued. */
  function ReservedForCall(c: Settings, a: Asset, m: Option<Marker>, now: nat, bypass: bool): Reserved {
    if !a.quarantined || (!bypass && BacksOff(c, a, now)) then Reserved(a, m, None)
    else if Reuses(c, a, m, now) then
      Reserved(a.(lastDispatchAttemptAt := Some(now), dispatchedAt := Some(now)), m, Some(a.dispatchAttempts))
    else if a.dispatchAttempts >= c.maxAttempts then
      Reserved(a.(dispatchedAt := None), None, None)
    else
      var n := a.dispatchAttempts + 1;
      Reserved(Asset(a.quarantined, n, Some(now), Some(now)), Some(Marker(n, now)), Some(n))
  }

  function ClearedMarker(m: Option<Marker>, attempt: nat): Option<Marker> {
    if m.Some? && m.value.attempts == attempt then None else m
  }

  function ClearedAsset(a: Asset, attempt: nat, clearDispatchedAt: bool): Asset {
    if clearDispatchedAt && a.dispatchAttempts == attempt then a.(dispatchedAt := None) else a
  }

  /** The rows one dispatch transaction locks. */
  class DispatchRows {
    var quarantined: bool
    var dispatchAttempts: nat
    var lastDispatchAttemptAt: Option<nat>
    var dispatchedAt: Option<nat>
    var marker: Option<Marker>

    function View(): Asset
      reads this
    {
      Asset(quarantined, dispatchAttempts, lastDispatchAttemptAt, dispatchedAt)
    }

    constructor ()
      ensures View() == Asset(true, 0, None, None) && marker == None
    {
      quarantined, dispatchAttempts, lastDispatchAttemptAt, dispatchedAt := true, 0, None, None;
      marker := None;
    }

    /** Hands out an attempt to a quarantined asset that is not backing off: the attempt of an ambiguous
        call that is recent enough, or else a new one while there are any left. */
    method ReserveDispatchAttempt(c: Settings, now: nat, bypassBackoff: bool, markIssued: bool)
      returns (attempt: Option<nat>)
      modifies this
      ensures var due := old(quarantined && (bypassBackoff || lastDispatchAttemptAt.None?
                                             || lastDispatchAttemptAt.value + c.retryDelay <= now));
              var reuse := markIssued && old(marker.Some? && marker.value.attempts > 0
                                             && marker.value.attempts == dispatchAttempts
                                             && marker.value.windowStartedAt + c.reuseWindow > now);
              && (attempt.Some? <==> due && (reuse || old(dispatchAttempts) < c.maxAttempts))
              && (attempt.Some? ==> attempt == Some(dispatchAttempts))
              && dispatchAttempts == old(dispatchAttempts) + (if attempt.Some? && !reuse then 1 else 0)
              && lastDispatchAttemptAt == (if attempt.Some? then Some(now) else old(lastDispatchAttemptAt))
              && (attempt.Some? && markIssued ==>
                    && dispatchedAt == Some(now) && marker.Some? && marker.value.attempts == dispatchAttempts
                    && marker.value.windowStartedAt == if reuse then old(marker.value.windowStartedAt) else now)
              && (attempt.None? && markIssued && due ==> marker.None? && dispatchedAt.None?)
              && (!markIssued || !due ==> unchanged(`marker, `dispatchedAt))
      ensures unchanged(`quarantined)
      ensures Reserved(View(), marker, attempt)
              == old(if markIssued then ReservedForCall(c, View(), marker, now, bypassBackoff)
                     else ReservedSilently(c, View(), marker, now, bypassBackoff))
    {
      if !quarantined { return None; }
      if !bypassBackoff && lastDispatchAttemptAt.Some? && lastDispatchAttemptAt.value + c.retryDelay > now {
        return None;
      }
      var reuse := false;
      if markIssued {
        reuse := && marker.Some? && marker.value.attempts > 0 && marker.value.attempts == dispatchAttempts
                 && marker.value.windowStartedAt + c.reuseWindow > now;
      }
      if !reuse {
        if dispatchAttempts >= c.maxAttempts {
          if markIssued {
            marker := None;
            dispatchedAt := None;
          }
          return None;
        }
        dispatchAttempts := dispatchAttempts + 1;
      }
      lastDispatchAttemptAt := Some(now);
      if markIssued {
        dispatchedAt := Some(now);
        // A reused token keeps the time of its first uncertain call.
        marker := Some(Marker(dispatchAttempts, if reuse then marker.value.windowStartedAt else now));
      }
      return Some(dispatchAttempts);
    }

    method ClearDispatchState(attempt: nat, clearDispatchedAt: bool)
      modifies `marker, `dispatchedAt
      ensures marker == if old(marker.Some? && marker.value.attempts == attempt) then None else old(marker)
      ensures dispatchedAt == if clearDispatchedAt && dispatchAttempts == attempt then None else old(dispatchedAt)
      ensures View() == old(ClearedAsset(View(), attempt, clearDispatchedAt))
      ensures marker == old(ClearedMarker(marker, attempt))
    {
      if marker.Some? && marker.value.attempts == attempt {
        marker := None;
      }
      if clearDispatchedAt && dispatchAttempts == attempt {
        dispatchedAt := None;
      }
    }
  }

  // ---- The protocol ----

  /** A committed reservation for a call. `grant` is the position of the unit of budget it spent, `bypass`
      whether it ignored the backoff. */
  datatype Reservation = Reservation(attempt: nat, at: nat, grant: nat, bypass: bool)

  /** RunTask requested for a reservation, after its transaction and outside every lock. */
  datatype Sending = Sending(reservation: nat, at: nat)

  /** The definite answer to a reservation's call; `reserved` and `sent` count the reservations and calls made
      until then. */
  datatype Answered = Answered(reservation: nat, reserved: nat, sent: nat)

  datatype Outcome = Success | DefiniteFailure | Unknown

  /** `open` are the reservations whose dispatcher still runs. `reservations`, `sends` and `settled` are this
      asset's history, `settled` mapping a token to its latest definite answer; `grants` is the budget spent by
      all assets. */
  datatype State = State(
    now: nat,
    asset: Asset,
    marker: Option<Marker>,
    budget: Budget,
    reservations: seq<Reservation>,
    open: set<nat>,
    sends: seq<Sending>,
    settled: map<nat, Answered>,
    grants: seq<Grant>)

  /** `FailBeforeCall` is a failure outside the budget transaction, `FailListingTasks` one inside it. A send
      repeats when the client library retries. `Abandon` is a dispatcher that dies or fails before anything is
      sent. `ReserveAnother` is a reservation for any other asset. */
  datatype Step =
    | Tick(time: nat)
    | FailBeforeCall(bypass: bool)
    | FailListingTasks(bypass: bool)
    | Reserve(bypass: bool, capacity: bool)
    | ReserveAnother
    | Send(reservation: nat)
    | Answer(reservation: nat, outcome: Outcome)
    | Abandon(reservation: nat)
    | ChangeStatus(quarantined: bool)
    | ExpireMarker

  predicate WasSent(sends: seq<Sending>, r: nat) {
    exists i :: 0 <= i < |sends| && sends[i].reservation == r
  }

  predicate Enabled(s: State, step: Step) {
    match step
    case Send(r) => r in s.open && r < |s.reservations|
    case Answer(r, _) => r in s.open && r < |s.reservations| && WasSent(s.sends, r)
    case Abandon(r) => r in s.open
    case _ => true
  }

  function SilentStep(c: Settings, s: State, bypass: bool): State {
    var r := ReservedSilently(c, s.asset, s.marker, s.now, bypass);
    s.(asset := r.asset, marker := r.marker)
  }

  /** The budget row once a reservation is charged to it. */
  function Charged(b: Budget): Budget {
    b.(attempts := b.attempts + 1)
  }

  function NewReservation(s: State, attempt: nat, bypass: bool): Reservation {
    Reservation(attempt, s.now, |s.grants|, bypass)
  }

  /** The transaction before RunTask: budget, capacity, then the reservation. */
  function ReserveStep(c: Settings, s: State, bypass: bool, capacity: bool): State {
    var b := Locked(s.budget, s.now, HOUR);
    if b.attempts >= c.tasksPerHour || !capacity then s.(budget := b)
    else
      var r := ReservedForCall(c, s.asset, s.marker, s.now, bypass);
      if r.attempt.None? then s.(budget := b, asset := r.asset, marker := r.marker)
      else
        s.(budget := Charged(b),
           asset := r.asset,
           marker := r.marker,
           reservations := s.reservations + [NewReservation(s, r.attempt.value, bypass)],
           open := s.open + {|s.reservations|},
           grants := s.grants + [Grant(s.now, b.windowStartedAt)])
  }

  function ReserveAnotherStep(c: Settings, s: State): State {
    var b := Locked(s.budget, s.now, HOUR);
    if b.attempts >= c.tasksPerHour then s.(budget := b)
    else s.(budget := Charged(b), grants := s.grants + [Grant(s.now, b.windowStartedAt)])
  }

  /** A success leaves the time of dispatch; an unknown outcome leaves everything for the next call. */
  function AnswerStep(s: State, r: nat, outcome: Outcome): State
    requires r < |s.reservations|
  {
    var attempt := s.reservations[r].attempt;
    if outcome.Unknown? then s.(open := s.open - {r})
    else
      s.(marker := ClearedMarker(s.marker, attempt),
         asset := ClearedAsset(s.asset, attempt, outcome.DefiniteFailure?),
         open := s.open - {r},
         settled := s.settled[attempt := Answered(r, |s.reservations|, |s.sends|)])
  }

  function Next(c: Settings, s: State, step: Step): State
    requires Enabled(s, step)
  {
    match step
    case Tick(d) => s.(now := s.now + d)
    case FailBeforeCall(bypass) => SilentStep(c, s, bypass)
    case FailListingTasks(bypass) =>
      var b := Locked(s.budget, s.now, HOUR);
      if b.attempts >= c.tasksPerHour then s.(budget := b) else SilentStep(c, s, bypass).(budget := b)
    case Reserve(bypass, capacity) => ReserveStep(c, s, bypass, capacity)
    case ReserveAnother => ReserveAnotherStep(c, s)
    case Send(r) => s.(sends := s.sends + [Sending(r, s.now)])
    case Answer(r, outcome) => AnswerStep(s, r, outcome)
    case Abandon(r) => s.(open := s.open - {r})
    case ChangeStatus(q) => s.(asset := s.asset.(quarantined := q))
    case ExpireMarker => s.(marker := None)
  }

  ghost predicate Initial(s: State) {
    && s.asset.dispatchAttempts == 0 && s.asset.lastDispatchAttemptAt.None? && s.asset.dispatchedAt.None?
    && s.marker.None? && s.reservations == [] && s.open == {} && s.sends == []
    && s.settled == map[] && s.grants == []
    && s.budget.attempts == 0 && s.budget.windowStartedAt <= s.now
  }

  ghost predicate Run(c: Settings, s: State, steps: seq<Step>, s': State)
    decreases |steps|
  {
    if steps == [] then s == s'
    else Enabled(s, steps[0]) && Run(c, Next(c, s, steps[0]), steps[1..], s')
  }

  // ---- The invariant of the reservations ----

  ghost predicate InOrder(res: seq<Reservation>, attempts: nat, now: nat) {
    && (forall i :: 0 <= i < |res| ==> 1 <= res[i].attempt <= attempts && res[i].at <= now)
    && (forall i, j :: 0 <= i < j < |res| ==> res[i].attempt <= res[j].attempt && res[i].at <= res[j].at)
  }

  /** Reservations of one token lie strictly within the reuse window of any earlier one, so of the first. */
  ghost predicate SharedTokensClose(res: seq<Reservation>, reuseWindow: nat) {
    forall i, j :: 0 <= i < j < |res| && res[i].attempt == res[j].attempt ==> res[j].at < res[i].at + reuseWindow
  }

  /** The marker belongs to an unsettled token and is no later than any reservation of the token. */
  ghost predicate MarkerSound(m: Option<Marker>, res: seq<Reservation>, settled: set<nat>, attempts: nat, now: nat) {
    m.Some? ==>
      && m.value.attempts <= attempts
      && m.value.attempts !in settled
      && m.value.windowStartedAt <= now
      && (forall i :: 0 <= i < |res| && res[i].attempt == m.value.attempts ==> m.value.windowStartedAt <= res[i].at)
  }

  ghost predicate SettledSound(settled: set<nat>, attempts: nat) {
    forall a :: a in settled ==> a <= attempts
  }

  ghost predicate TokensInv(
    c: Settings, a: Asset, m: Option<Marker>, res: seq<Reservation>, settled: set<nat>, now: nat)
  {
    && a.dispatchAttempts <= c.maxAttempts
    && InOrder(res, a.dispatchAttempts, now)
    && SharedTokensClose(res, c.reuseWindow)
    && MarkerSound(m, res, settled, a.dispatchAttempts, now)
    && SettledSound(settled, a.dispatchAttempts)
  }

  /** A reservation that respects the backoff comes at least the retry delay after every earlier one. */
  ghost predicate BackedOff(res: seq<Reservation>, retryDelay: nat) {
    forall i, j :: 0 <= i < j < |res| && !res[j].bypass ==> res[i].at + retryDelay <= res[j].at
  }

  /** The asset remembers the time of its last reservation, unless the call is known to have failed. */
  ghost predicate Remembered(res: seq<Reservation>, a: Asset, now: nat) {
    && (res != [] ==> a.lastDispatchAttemptAt.Some? && res[|res| - 1].at <= a.lastDispatchAttemptAt.value)
    && (a.dispatchedAt.Some? ==> res != [] && res[|res| - 1].at == a.dispatchedAt.value)
    && (a.lastDispatchAttemptAt.Some? ==> a.lastDispatchAttemptAt.value <= now)
  }

  /** Every reservation spent a unit of budget of its own, at its time. */
  ghost predicate ReservationsCharged(res: seq<Reservation>, grants: seq<Grant>) {
    && (forall i :: 0 <= i < |res| ==> res[i].grant < |grants| && grants[res[i].grant].at == res[i].at)
    && (forall i, j :: 0 <= i < j < |res| ==> res[i].grant < res[j].grant)
  }

  ghost predicate BudgetInv(c: Settings, b: Budget, res: seq<Reservation>, grants: seq<Grant>, now: nat) {
    ReservationsCharged(res, grants) && BudgetSound(b, grants, c.tasksPerHour, HOUR, now)
  }

  // ---- The invariant of sends and answers ----

  /** Each send is for a reservation made before. */
  ghost predicate SendsSound(res: seq<Reservation>, sends: seq<Sending>, now: nat) {
    forall i :: 0 <= i < |sends| ==>
      sends[i].reservation < |res| && res[sends[i].reservation].at <= sends[i].at <= now
  }

  /** A token is settled by a reservation of its own, and not reserved after that. */
  ghost predicate AnswersSound(res: seq<Reservation>, open: set<nat>, settled: map<nat, Answered>) {
    && (forall r :: r in open ==> r < |res|)
    && (forall t :: t in settled ==>
          && settled[t].reservation < settled[t].reserved <= |res| && settled[t].reservation !in open
          && res[settled[t].reservation].attempt == t)
    && (forall r :: 0 <= r < |res| && res[r].attempt in settled ==> r < settled[res[r].attempt].reserved)
  }

  ghost predicate Inv(c: Settings, s: State) {
    && TokensInv(c, s.asset, s.marker, s.reservations, s.settled.Keys, s.now)
    && BackedOff(s.reservations, c.retryDelay) && Remembered(s.reservations, s.asset, s.now)
    && BudgetInv(c, s.budget, s.reservations, s.grants, s.now)
    && SendsSound(s.reservations, s.sends, s.now)
    && AnswersSound(s.reservations, s.open, s.settled)
  }

  lemma InitialInv(c: Settings, s: State)
    requires Initial(s)
    ensures Inv(c, s)
  {}

  lemma ReuseKeeps(
    c: Settings, a: Asset, a': Asset, m: Marker, res: seq<Reservation>, settled: set<nat>, r: Reservation)
    requires TokensInv(c, a, Some(m), res, settled, r.at) && Reuses(c, a, Some(m), r.at)
    requires r.attempt == a.dispatchAttempts == a'.dispatchAttempts
    ensures r.attempt !in settled && TokensInv(c, a', Some(m), res + [r], settled, r.at)
  {}

  lemma FreshKeeps(
    c: Settings, a: Asset, a': Asset, m: Option<Marker>, res: seq<Reservation>, settled: set<nat>, r: Reservation)
    requires TokensInv(c, a, m, res, settled, r.at) && a.dispatchAttempts < c.maxAttempts
    requires r.attempt == a.dispatchAttempts + 1 == a'.dispatchAttempts
    ensures r.attempt !in settled && TokensInv(c, a', Some(Marker(r.attempt, r.at)), res + [r], settled, r.at)
  {}

  lemma ReservationKeeps(c: Settings, s: State, bypass: bool)
    requires TokensInv(c, s.asset, s.marker, s.reservations, s.settled.Keys, s.now)
    ensures var r := ReservedForCall(c, s.asset, s.marker, s.now, bypass);
            && (r.attempt.None? ==> TokensInv(c, r.asset, r.marker, s.reservations, s.settled.Keys, s.now))
            && (r.attempt.Some? ==>
                  && r.attempt.value !in s.settled
                  && var res := s.reservations + [NewReservation(s, r.attempt.value, bypass)];
                     TokensInv(c, r.asset, r.marker, res, s.settled.Keys, s.now))
  {
    var r := ReservedForCall(c, s.asset, s.marker, s.now, bypass);
    if r.attempt.Some? {
      var made := NewReservation(s, r.attempt.value, bypass);
      if Reuses(c, s.asset, s.marker, s.now) {
        ReuseKeeps(c, s.asset, r.asset, s.marker.value, s.reservations, s.settled.Keys, made);
      } else {
        FreshKeeps(c, s.asset, r.asset, s.marker, s.reservations, s.settled.Keys, made);
      }
    }
  }

  lemma SilentKeeps(c: Settings, s: State, bypass: bool)
    requires TokensInv(c, s.asset, s.marker, s.reservations, s.settled.Keys, s.now)
    ensures var r := ReservedSilently(c, s.asset, s.marker, s.now, bypass);
            TokensInv(c, r.asset, r.marker, s.reservations, s.settled.Keys, s.now)
  {}

  lemma AnswerKeeps(c: Settings, s: State, r: nat, outcome: Outcome)
    requires TokensInv(c, s.asset, s.marker, s.reservations, s.settled.Keys, s.now) && r < |s.reservations|
    ensures var s' := AnswerStep(s, r, outcome);
            TokensInv(c, s'.asset, s'.marker, s'.reservations, s'.settled.Keys, s'.now)
  {}

  lemma StepTokens(c: Settings, s: State, step: Step)
    requires TokensInv(c, s.asset, s.marker, s.reservations, s.settled.Keys, s.now) && Enabled(s, step)
    ensures var s' := Next(c, s, step); TokensInv(c, s'.asset, s'.marker, s'.reservations, s'.settled.Keys, s'.now)
  {
    match step
    case FailBeforeCall(bypass) => SilentKeeps(c, s, bypass);
    case FailListingTasks(bypass) => SilentKeeps(c, s, bypass);
    case Reserve(bypass, capacity) => ReservationKeeps(c, s, bypass);
    case Answer(r, outcome) => AnswerKeeps(c, s, r, outcome);
    case _ =>
  }

  lemma ReserveKeepsBackoff(res: seq<Reservation>, a: Asset, retryDelay: nat, now: nat, r: Reservation, attempts: nat)
    requires BackedOff(res, retryDelay) && Remembered(res, a, now) && InOrder(res, attempts, now) && r.at == now
    requires !r.bypass && a.lastDispatchAttemptAt.Some? ==> a.lastDispatchAttemptAt.value + retryDelay <= now
    ensures BackedOff(res + [r], retryDelay)
  {}

  lemma StepBackoff(c: Settings, s: State, step: Step)
    requires Inv(c, s) && Enabled(s, step)
    ensures BackedOff(Next(c, s, step).reservations, c.retryDelay)
  {
    if step.Reserve? {
      var r := ReservedForCall(c, s.asset, s.marker, s.now, step.bypass);
      if r.attempt.Some? {
        ReserveKeepsBackoff(s.reservations, s.asset, c.retryDelay, s.now,
                            NewReservation(s, r.attempt.value, step.bypass), s.asset.dispatchAttempts);
      }
    }
  }

  lemma StepRemembered(c: Settings, s: State, step: Step)
    requires Remembered(s.reservations, s.asset, s.now) && Enabled(s, step)
    ensures var s' := Next(c, s, step); Remembered(s'.reservations, s'.asset, s'.now)
  {}

  /** One unit of budget for a reservation of this asset or of another. */
  lemma ChargeKeeps(c: Settings, b: Budget, res: seq<Reservation>, grants: seq<Grant>, now: nat, r: Reservation)
    requires BudgetInv(c, b, res, grants, now) && r.at == now && r.grant == |grants|
    ensures var l := Locked(b, now, HOUR);
            && BudgetInv(c, l, res, grants, now)
            && (l.attempts < c.tasksPerHour ==>
                  var grants' := grants + [Grant(now, l.windowStartedAt)];
                  && BudgetInv(c, Charged(l), res, grants', now)
                  && BudgetInv(c, Charged(l), res + [r], grants', now))
  {
    BudgetKeeps(b, grants, c.tasksPerHour, HOUR, now, now);
    ChargeIsOwn(res, grants, r, Grant(now, Locked(b, now, HOUR).windowStartedAt));
  }

  lemma ChargeIsOwn(res: seq<Reservation>, grants: seq<Grant>, r: Reservation, g: Grant)
    requires ReservationsCharged(res, grants) && r.grant == |grants| && r.at == g.at
    ensures ReservationsCharged(res, grants + [g]) && ReservationsCharged(res + [r], grants + [g])
  {}

  lemma StepBudget(c: Settings, s: State, step: Step)
    requires BudgetInv(c, s.budget, s.reservations, s.grants, s.now) && Enabled(s, step)
    ensures var s' := Next(c, s, step); BudgetInv(c, s'.budget, s'.reservations, s'.grants, s'.now)
  {
    match step
    case Reserve(bypass, capacity) =>
      var r := ReservedForCall(c, s.asset, s.marker, s.now, bypass);
      var attempt := if r.attempt.Some? then r.attempt.value else 0;
      ChargeKeeps(c, s.budget, s.reservations, s.grants, s.now, NewReservation(s, attempt, bypass));
    case _ =>
      ChargeKeeps(c, s.budget, s.reservations, s.grants, s.now, NewReservation(s, 0, false));
  }

  lemma StepSends(c: Settings, s: State, step: Step)
    requires SendsSound(s.reservations, s.sends, s.now) && Enabled(s, step)
    requires InOrder(s.reservations, s.asset.dispatchAttempts, s.now)
    ensures var s' := Next(c, s, step); SendsSound(s'.reservations, s'.sends, s'.now)
  {}

  lemma ReserveKeepsAnswers(res: seq<Reservation>, open: set<nat>, settled: map<nat, Answered>, r: Reservation)
    requires AnswersSound(res, open, settled) && r.attempt !in settled
    ensures AnswersSound(res + [r], open + {|res|}, settled)
  {}

  lemma AnswerKeepsAnswers(s: State, r: nat, outcome: Outcome)
    requires AnswersSound(s.reservations, s.open, s.settled) && r in s.open
    ensures var s' := AnswerStep(s, r, outcome); AnswersSound(s'.reservations, s'.open, s'.settled)
  {}

  lemma StepAnswers(c: Settings, s: State, step: Step)
    requires AnswersSound(s.reservations, s.open, s.settled) && Enabled(s, step)
    requires TokensInv(c, s.asset, s.marker, s.reservations, s.settled.Keys, s.now)
    ensures var s' := Next(c, s, step); AnswersSound(s'.reservations, s'.open, s'.settled)
  {
    match step
    case Reserve(bypass, capacity) =>
      ReservationKeeps(c, s, bypass);
      var r := ReservedForCall(c, s.asset, s.marker, s.now, bypass);
      if r.attempt.Some? {
        ReserveKeepsAnswers(s.reservations, s.open, s.settled, NewReservation(s, r.attempt.value, bypass));
      }
    case Answer(r, outcome) => AnswerKeepsAnswers(s, r, outcome);
    case _ =>
  }

  lemma StepInv(c: Settings, s: State, step: Step)
    requires Inv(c, s) && Enabled(s, step)
    ensures Inv(c, Next(c, s, step))
  {
    StepTokens(c, s, step);
    StepBackoff(c, s, step);
    StepRemembered(c, s, step);
    StepBudget(c, s, step);
    StepSends(c, s, step);
    StepAnswers(c, s, step);
  }

  lemma {:induction false} RunInv(c: Settings, s: State, steps: seq<Step>, s': State)
    requires Inv(c, s) && Run(c, s, steps, s')
    ensures Inv(c, s')
    decreases |steps|
  {
    if steps != [] {
      StepInv(c, s, steps[0]);
      RunInv(c, Next(c, s, steps[0]), steps[1..], s');
    }
  }

  lemma ReachableInv(c: Settings, s0: State, steps: seq<Step>, s: State)
    requires Initial(s0) && Run(c, s0, steps, s)
    ensures Inv(c, s)
  {
    InitialInv(c, s0);
    RunInv(c, s0, steps, s);
  }

  // ---- What every run guarantees about reservations ----

  /** Attempts stay bounded, the attempts reserved never decrease, and all reservations that share a client
      token fall strictly within the reuse window of that token's first one. */
  lemma TokensAreBounded(c: Settings, s0: State, steps: seq<Step>, s: State)
    requires Initial(s0) && Run(c, s0, steps, s)
    ensures s.asset.dispatchAttempts <= c.maxAttempts
    ensures var res := s.reservations;
            && (forall i :: 0 <= i < |res| ==> 1 <= res[i].attempt <= c.maxAttempts)
            && (forall i, j :: 0 <= i < j < |res| ==> res[i].attempt <= res[j].attempt)
            && (forall i, j :: 0 <= i < j < |res| && res[i].attempt == res[j].attempt ==>
                  res[i].at <= res[j].at < res[i].at + c.reuseWindow)
  {
    ReachableInv(c, s0, steps, s);
  }

  /** A token that got a definite answer is never reserved again. */
  lemma SettledTokenIsNotReserved(c: Settings, s0: State, steps: seq<Step>, s: State, bypass: bool, capacity: bool)
    requires Initial(s0) && Run(c, s0, steps, s)
    ensures var res := ReserveStep(c, s, bypass, capacity).reservations;
            res == s.reservations || (|res| == |s.reservations| + 1 && res[|s.reservations|].attempt !in s.settled)
  {
    ReachableInv(c, s0, steps, s);
    ReservationKeeps(c, s, bypass);
  }

  /** Reservations are made only for quarantined media, those that respect the backoff at least the retry delay
      after any earlier one, and the recorded time of dispatch is that of the last one. */
  lemma BackoffIsKept(c: Settings, s0: State, steps: seq<Step>, s: State, bypass: bool, capacity: bool)
    requires Initial(s0) && Run(c, s0, steps, s)
    ensures var res := s.reservations;
            && (forall i, j :: 0 <= i < j < |res| && !res[j].bypass ==> res[i].at + c.retryDelay <= res[j].at)
            && (s.asset.dispatchedAt.Some? ==> res != [] && res[|res| - 1].at == s.asset.dispatchedAt.value)
    ensures !s.asset.quarantined ==> ReserveStep(c, s, bypass, capacity).reservations == s.reservations
  {
    ReachableInv(c, s0, steps, s);
  }

  /** Every reservation is charged once, and the charges of all assets together never exceed the hourly budget
      in one window, nor twice the budget in any hour. */
  lemma ReservationsStayInBudget(c: Settings, s0: State, steps: seq<Step>, s: State, from: nat)
    requires Initial(s0) && Run(c, s0, steps, s)
    ensures ReservationsCharged(s.reservations, s.grants)
    ensures LogSound(s.grants, c.tasksPerHour, HOUR)
    ensures CountBetween(s.grants, from, from + HOUR) <= 2 * c.tasksPerHour
  {
    ReachableInv(c, s0, steps, s);
    SlidingBound(s.grants, c.tasksPerHour, HOUR, from);
  }

  // ---- What every run guarantees about RunTask calls ----

  function TokenOf(s: State, i: nat): nat
    requires i < |s.sends| && s.sends[i].reservation < |s.reservations|
  {
    s.reservations[s.sends[i].reservation].attempt
  }

  /** How long a call went out after its reservation. */
  function Delay(s: State, i: nat): int
    requires i < |s.sends| && s.sends[i].reservation < |s.reservations|
  {
    s.sends[i].at - s.reservations[s.sends[i].reservation].at
  }

  /** Every call carries the token of an earlier reservation. Calls with one token from different
      reservations are less than the reuse window and the delay of the later call apart. */
  lemma SendsFollowReservations(c: Settings, s0: State, steps: seq<Step>, s: State, i: nat, j: nat)
    requires Initial(s0) && Run(c, s0, steps, s) && i < |s.sends| && j < |s.sends|
    ensures s.sends[i].reservation < |s.reservations| && s.sends[j].reservation < |s.reservations|
    ensures 1 <= TokenOf(s, i) <= c.maxAttempts && Delay(s, i) >= 0
    ensures TokenOf(s, i) == TokenOf(s, j) && s.sends[i].reservation != s.sends[j].reservation ==>
              s.sends[j].at < s.sends[i].at + c.reuseWindow + Delay(s, j)
  {
    ReachableInv(c, s0, steps, s);
  }

  /** Reservation `f` is the first one of the token of reservation `r`. */
  predicate IsFirst(res: seq<Reservation>, f: nat, r: nat) {
    f <= r < |res| && res[f].attempt == res[r].attempt && forall i :: 0 <= i < f ==> res[i].attempt != res[r].attempt
  }

  /** No new reservation takes a token after its reuse window. */
  lemma ExpiredTokenIsNotReserved(
    c: Settings, s0: State, steps: seq<Step>, s: State, r: nat, f: nat, bypass: bool, capacity: bool)
    requires Initial(s0) && Run(c, s0, steps, s) && IsFirst(s.reservations, f, r)
    requires s.now >= s.reservations[f].at + c.reuseWindow
    ensures var res, res' := s.reservations, ReserveStep(c, s, bypass, capacity).reservations;
            res' == res || (|res'| == |res| + 1 && res'[|res|].attempt != res[r].attempt)
  {
    ReachableInv(c, s0, steps, s);
    var step := Reserve(bypass, capacity);
    StepTokens(c, s, step);
    ExpiredIsNotReserved(s.reservations, Next(c, s, step).reservations, c.reuseWindow, s.now, r, f);
  }

  lemma ExpiredIsNotReserved(res: seq<Reservation>, res': seq<Reservation>, reuseWindow: nat, now: nat, r: nat, f: nat)
    requires IsFirst(res, f, r) && SharedTokensClose(res', reuseWindow)
    requires res' == res || (|res'| == |res| + 1 && res'[..|res|] == res && res'[|res|].at == now)
    requires now >= res[f].at + reuseWindow
    ensures res' == res || res'[|res|].attempt != res[r].attempt
  {
    if res' != res {
      assert res'[f] == res'[..|res|][f];
    }
  }

  /** An open reservation of a settled token was made before the answer that settled it came to another
      reservation of the token. */
  lemma SettledTokenWasShared(c: Settings, s0: State, steps: seq<Step>, s: State, r: nat)
    requires Initial(s0) && Run(c, s0, steps, s) && Enabled(s, Send(r))
    requires s.reservations[r].attempt in s.settled
    ensures var a := s.settled[s.reservations[r].attempt];
            && a.reservation != r && a.reservation < |s.reservations| && r < a.reserved
            && s.reservations[a.reservation].attempt == s.reservations[r].attempt
  {
    ReachableInv(c, s0, steps, s);
  }

  predicate OpenFor(s: State, o: nat, token: nat) {
    o in s.open && o < |s.reservations| && s.reservations[o].attempt == token
  }

  /** Some dispatcher can still send a token that is settled. */
  ghost predicate SettledCallPossible(s: State, token: nat) {
    token in s.settled && exists o: nat :: OpenFor(s, o, token)
  }

  lemma SettledCallStaysImpossible(c: Settings, s: State, step: Step, token: nat)
    requires Inv(c, s) && Enabled(s, step) && token in s.settled && !SettledCallPossible(s, token)
    ensures token in Next(c, s, step).settled && !SettledCallPossible(Next(c, s, step), token)
  {
    var s' := Next(c, s, step);
    if step.Reserve? { ReservationKeeps(c, s, step.bypass); }
    forall o: nat ensures !OpenFor(s', o, token) {
      OpenBefore(c, s, step, o, token);
    }
  }

  /** A step opens no reservation but one of an unsettled token. */
  lemma OpenBefore(c: Settings, s: State, step: Step, o: nat, token: nat)
    requires AnswersSound(s.reservations, s.open, s.settled) && Enabled(s, step) && token in s.settled
    requires TokensInv(c, s.asset, s.marker, s.reservations, s.settled.Keys, s.now)
    ensures OpenFor(Next(c, s, step), o, token) ==> OpenFor(s, o, token)
  {
    if step.Reserve? { ReservationKeeps(c, s, step.bypass); }
  }

  /** Some call that `s'` has made since `s` carries the token. */
  ghost predicate CalledSince(s: State, s': State, token: nat) {
    exists i :: |s.sends| <= i < |s'.sends| && s'.sends[i].reservation < |s'.reservations| && TokenOf(s', i) == token
  }

  lemma StepGrows(c: Settings, s: State, step: Step)
    requires Enabled(s, step)
    ensures s.sends <= Next(c, s, step).sends && s.reservations <= Next(c, s, step).reservations
    ensures |Next(c, s, step).sends| <= |s.sends| + 1
    ensures |Next(c, s, step).sends| > |s.sends| ==> step.Send?
  {}

  lemma {:induction false} RunGrows(c: Settings, s: State, steps: seq<Step>, s': State)
    requires Run(c, s, steps, s')
    ensures s.sends <= s'.sends && s.reservations <= s'.reservations
    decreases |steps|
  {
    if steps != [] {
      StepGrows(c, s, steps[0]);
      RunGrows(c, Next(c, s, steps[0]), steps[1..], s');
    }
  }

  /** Whether the step itself calls the token. */
  predicate Calls(s: State, step: Step, token: nat) {
    step.Send? && OpenFor(s, step.reservation, token)
  }

  lemma CalledNowOrLater(c: Settings, s: State, step: Step, s1: State, s': State, token: nat)
    requires Enabled(s, step) && s1 == Next(c, s, step) && s1.sends <= s'.sends && s1.reservations <= s'.reservations
    requires !Calls(s, step, token) && !CalledSince(s1, s', token)
    ensures !CalledSince(s, s', token)
  {
    StepGrows(c, s, step);
    forall i | |s.sends| <= i < |s'.sends| && s'.sends[i].reservation < |s'.reservations|
      ensures TokenOf(s', i) != token
    {
      if i < |s1.sends| {
        assert s'.sends[i] == s1.sends[i];
      }
    }
  }

  /** Once no dispatcher can send a settled token, no run calls it again. */
  lemma {:induction false} SettledTokenStaysIn(c: Settings, s: State, steps: seq<Step>, s': State, token: nat)
    requires Inv(c, s) && Run(c, s, steps, s') && token in s.settled && !SettledCallPossible(s, token)
    ensures !CalledSince(s, s', token)
    decreases |steps|
  {
    if steps != [] {
      var s1 := Next(c, s, steps[0]);
      SettledCallStaysImpossible(c, s, steps[0], token);
      StepInv(c, s, steps[0]);
      SettledTokenStaysIn(c, s1, steps[1..], s', token);
      RunGrows(c, s1, steps[1..], s');
      CalledNowOrLater(c, s, steps[0], s1, s', token);
    }
  }

  /** Some continuation calls the token. */
  ghost predicate CalledAgain(c: Settings, s: State, token: nat) {
    exists rest, s' :: Run(c, s, rest, s') && CalledSince(s, s', token)
  }

  /** When a settled token still goes out: after a definite answer in a reachable state some continuation calls
      the token again exactly if another reservation of it is open at that answer. */
  lemma SettledTokenGoesOut(c: Settings, s0: State, steps: seq<Step>, s: State, r: nat, outcome: Outcome)
    requires Initial(s0) && Run(c, s0, steps, s) && Enabled(s, Answer(r, outcome)) && !outcome.Unknown?
    ensures var token := s.reservations[r].attempt;
            CalledAgain(c, Next(c, s, Answer(r, outcome)), token) <==> exists o: nat :: o != r && OpenFor(s, o, token)
  {
    var token, s1 := s.reservations[r].attempt, Next(c, s, Answer(r, outcome));
    ReachableInv(c, s0, steps, s);
    StepInv(c, s, Answer(r, outcome));
    OthersStayOpen(c, s, r, outcome, token);
    SettledCallIff(c, s1, token);
  }

  lemma OthersStayOpen(c: Settings, s: State, r: nat, outcome: Outcome, token: nat)
    requires Enabled(s, Answer(r, outcome))
    ensures (exists o: nat :: OpenFor(Next(c, s, Answer(r, outcome)), o, token))
            <==> exists o: nat :: o != r && OpenFor(s, o, token)
  {
    var s1 := Next(c, s, Answer(r, outcome));
    forall o: nat ensures OpenFor(s1, o, token) <==> o != r && OpenFor(s, o, token) {}
  }

  /** A settled token can be called again exactly if some dispatcher holds it. */
  lemma SettledCallIff(c: Settings, s: State, token: nat)
    requires Inv(c, s) && token in s.settled
    ensures CalledAgain(c, s, token) <==> exists o: nat :: OpenFor(s, o, token)
  {
    if o: nat :| OpenFor(s, o, token) {
      OpenTokenGoesOut(c, s, o, token);
    } else {
      forall rest, s' | Run(c, s, rest, s') ensures !CalledSince(s, s', token) {
        SettledTokenStaysIn(c, s, rest, s', token);
      }
    }
  }

  lemma OpenTokenGoesOut(c: Settings, s: State, o: nat, token: nat)
    requires OpenFor(s, o, token)
    ensures CalledAgain(c, s, token)
  {
    var s' := Next(c, s, Send(o));
    assert [Send(o)][1..] == [] && Run(c, s', [], s');
    assert Run(c, s, [Send(o)], s');
    assert TokenOf(s', |s.sends|) == token;
    assert CalledSince(s, s', token);
  }

  /** When the attempts sent decrease: a call goes out after one with a higher attempt exactly if a call of a
      later reservation with another token went out while its own was open. */
  lemma SendsDecreaseIfOvertaken(c: Settings, s0: State, steps: seq<Step>, s: State, r: nat)
    requires Initial(s0) && Run(c, s0, steps, s) && Enabled(s, Send(r))
    ensures SendsSound(s.reservations, s.sends, s.now)
    ensures (exists i :: 0 <= i < |s.sends| && TokenOf(s, i) > s.reservations[r].attempt)
            <==> exists i :: 0 <= i < |s.sends| && s.sends[i].reservation > r
                             && TokenOf(s, i) != s.reservations[r].attempt
  {
    ReachableInv(c, s0, steps, s);
    if i :| 0 <= i < |s.sends| && TokenOf(s, i) > s.reservations[r].attempt {
      assert s.sends[i].reservation > r && TokenOf(s, i) != s.reservations[r].attempt;
    }
    if i :| 0 <= i < |s.sends| && s.sends[i].reservation > r && TokenOf(s, i) != s.reservations[r].attempt {
      assert TokenOf(s, i) > s.reservations[r].attempt;
    }
  }

  // ---- One dispatcher at a time ----

  /** No reservation is made while the dispatcher of another one for the asset still runs. */
  ghost predicate Serial(c: Settings, s: State, steps: seq<Step>)
    decreases |steps|
  {
    steps != [] && Enabled(s, steps[0]) ==>
      && (steps[0].Reserve? && ReserveStep(c, s, steps[0].bypass, steps[0].capacity).reservations != s.reservations ==>
            s.open == {})
      && Serial(c, Next(c, s, steps[0]), steps[1..])
  }

  /** Only the last reservation can be open, and its token is unsettled while it is. */
  ghost predicate LastOpen(open: set<nat>, res: seq<Reservation>, settled: map<nat, Answered>) {
    forall r :: r in open ==> r == |res| - 1 && r >= 0 && res[r].attempt !in settled
  }

  ghost predicate SentInOrder(sends: seq<Sending>, n: nat) {
    && (forall i :: 0 <= i < |sends| ==> sends[i].reservation < n)
    && (forall i, j :: 0 <= i < j < |sends| ==> sends[i].reservation <= sends[j].reservation)
  }

  /** All calls of a settled token were made before its answer. */
  ghost predicate SettledAtRest(sends: seq<Sending>, res: seq<Reservation>, settled: map<nat, Answered>) {
    forall i :: 0 <= i < |sends| && sends[i].reservation < |res| && res[sends[i].reservation].attempt in settled ==>
      i < settled[res[sends[i].reservation].attempt].sent
  }

  ghost predicate SerialInv(s: State) {
    && LastOpen(s.open, s.reservations, s.settled) && SentInOrder(s.sends, |s.reservations|)
    && SettledAtRest(s.sends, s.reservations, s.settled)
  }

  lemma SerialReserve(c: Settings, s: State, bypass: bool, capacity: bool)
    requires TokensInv(c, s.asset, s.marker, s.reservations, s.settled.Keys, s.now)
    requires LastOpen(s.open, s.reservations, s.settled)
    requires ReserveStep(c, s, bypass, capacity).reservations != s.reservations ==> s.open == {}
    ensures var s' := ReserveStep(c, s, bypass, capacity); LastOpen(s'.open, s'.reservations, s'.settled)
  {
    ReservationKeeps(c, s, bypass);
  }

  lemma SerialAnswer(s: State, r: nat, outcome: Outcome)
    requires LastOpen(s.open, s.reservations, s.settled) && r in s.open && r < |s.reservations|
    ensures var s' := AnswerStep(s, r, outcome); LastOpen(s'.open, s'.reservations, s'.settled)
  {
    assert s.open == {r};
  }

  lemma SerialOpen(c: Settings, s: State, step: Step)
    requires TokensInv(c, s.asset, s.marker, s.reservations, s.settled.Keys, s.now)
    requires LastOpen(s.open, s.reservations, s.settled) && Enabled(s, step)
    requires step.Reserve? ==>
               ReserveStep(c, s, step.bypass, step.capacity).reservations != s.reservations ==> s.open == {}
    ensures var s' := Next(c, s, step); LastOpen(s'.open, s'.reservations, s'.settled)
  {
    match step
    case Reserve(bypass, capacity) => SerialReserve(c, s, bypass, capacity);
    case Answer(r, outcome) => SerialAnswer(s, r, outcome);
    case _ =>
  }

  lemma SerialSend(c: Settings, s: State, step: Step)
    requires SentInOrder(s.sends, |s.reservations|) && Enabled(s, step)
    requires step.Send? ==> step.reservation == |s.reservations| - 1
    ensures SentInOrder(Next(c, s, step).sends, |Next(c, s, step).reservations|)
  {}

  lemma SerialStep(c: Settings, s: State, step: Step)
    requires Inv(c, s) && SerialInv(s) && Enabled(s, step)
    requires step.Reserve? ==>
               ReserveStep(c, s, step.bypass, step.capacity).reservations != s.reservations ==> s.open == {}
    ensures SerialInv(Next(c, s, step))
  {
    SerialOpen(c, s, step);
    SerialSend(c, s, step);
    SerialRest(c, s, step);
  }

  lemma SerialRest(c: Settings, s: State, step: Step)
    requires SettledAtRest(s.sends, s.reservations, s.settled) && SentInOrder(s.sends, |s.reservations|)
    requires LastOpen(s.open, s.reservations, s.settled) && Enabled(s, step)
    ensures var s' := Next(c, s, step); SettledAtRest(s'.sends, s'.reservations, s'.settled)
  {}

  lemma {:induction false} SerialRun(c: Settings, s: State, steps: seq<Step>, s': State)
    requires Inv(c, s) && SerialInv(s) && Run(c, s, steps, s') && Serial(c, s, steps)
    ensures SerialInv(s')
    decreases |steps|
  {
    if steps != [] {
      StepInv(c, s, steps[0]);
      SerialStep(c, s, steps[0]);
      SerialRun(c, Next(c, s, steps[0]), steps[1..], s');
    }
  }

  /** With one dispatcher at a time the attempts sent never decrease and no settled token goes out. */
  lemma SerialCallsAreSafe(c: Settings, s0: State, steps: seq<Step>, s: State)
    requires Initial(s0) && Run(c, s0, steps, s) && Serial(c, s0, steps)
    ensures SendsSound(s.reservations, s.sends, s.now)
    ensures forall i, j :: 0 <= i < j < |s.sends| ==> TokenOf(s, i) <= TokenOf(s, j)
    ensures SettledAtRest(s.sends, s.reservations, s.settled)
  {
    InitialInv(c, s0);
    SerialRun(c, s0, steps, s);
    ReachableInv(c, s0, steps, s);
    TokensInOrder(s);
  }

  lemma TokensInOrder(s: State)
    requires SentInOrder(s.sends, |s.reservations|)
    requires forall i, j :: 0 <= i < j < |s.reservations| ==> s.reservations[i].attempt <= s.reservations[j].attempt
    ensures forall i, j :: 0 <= i < j < |s.sends| ==> TokenOf(s, i) <= TokenOf(s, j)
  {
    forall i, j | 0 <= i < j < |s.sends| ensures TokenOf(s, i) <= TokenOf(s, j) {
      assert s.sends[i].reservation <= s.sends[j].reservation;
    }
  }
}
