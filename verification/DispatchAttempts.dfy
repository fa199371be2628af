/** Where the attempts of an asset go: each is used up by a failure before any call or stands behind a
    client token, and together they are bounded. */
module DispatchAttempts {
  import opened Options
  import opened FixedWindow
  import opened DispatchTokens

  /** A failure outside the budget transaction, or one inside it while the budget lasts, that is handed
      an attempt. */
  predicate UsesAttemptSilently(c: Settings, s: State, step: Step) {
    match step
    case FailBeforeCall(bypass) => ReservedSilently(c, s.asset, s.marker, s.now, bypass).attempt.Some?
    case FailListingTasks(bypass) =>
      && Locked(s.budget, s.now, HOUR).attempts < c.tasksPerHour
      && ReservedSilently(c, s.asset, s.marker, s.now, bypass).attempt.Some?
    case _ => false
  }

  ghost function SilentAttempts(c: Settings, s: State, steps: seq<Step>): nat
    decreases |steps|
  {
    if steps == [] || !Enabled(s, steps[0]) then 0
    else
      (if UsesAttemptSilently(c, s, steps[0]) then 1 else 0) + SilentAttempts(c, Next(c, s, steps[0]), steps[1..])
  }

  /** The client tokens reserved so far. */
  ghost function Tokens(res: seq<Reservation>): set<nat> {
    set i | 0 <= i < |res| :: res[i].attempt
  }

  /** The marker belongs to a token that was reserved. */
  ghost predicate MarkerReserved(m: Option<Marker>, res: seq<Reservation>) {
    m.Some? ==> m.value.attempts in Tokens(res)
  }

  lemma OneMore(res: seq<Reservation>, r: Reservation)
    ensures Tokens(res + [r]) == Tokens(res) + {r.attempt}
  {
    var all := res + [r];
    forall t | t in Tokens(res) + {r.attempt} ensures t in Tokens(all) {
      if t in Tokens(res) {
        var i :| 0 <= i < |res| && res[i].attempt == t;
        assert all[i].attempt == t;
      } else {
        assert all[|res|].attempt == t;
      }
    }
  }

  /** A call's reservation either repeats the marker's token or takes the next attempt. */
  lemma CallAttempts(c: Settings, a: Asset, m: Option<Marker>, res: seq<Reservation>, r: Reservation, bypass: bool)
    requires InOrder(res, a.dispatchAttempts, r.at) && MarkerReserved(m, res)
    requires var made := ReservedForCall(c, a, m, r.at, bypass); made.attempt == Some(r.attempt)
    ensures var made := ReservedForCall(c, a, m, r.at, bypass);
            && MarkerReserved(made.marker, res + [r])
            && made.asset.dispatchAttempts - |Tokens(res + [r])| == a.dispatchAttempts - |Tokens(res)|
  {
    OneMore(res, r);
    if Reuses(c, a, m, r.at) {
      assert Tokens(res) + {r.attempt} == Tokens(res);
    } else {
      assert r.attempt !in Tokens(res);
    }
  }

  lemma ReserveAttempts(c: Settings, s: State, bypass: bool, capacity: bool, s': State)
    requires InOrder(s.reservations, s.asset.dispatchAttempts, s.now) && MarkerReserved(s.marker, s.reservations)
    requires s' == ReserveStep(c, s, bypass, capacity)
    ensures MarkerReserved(s'.marker, s'.reservations)
    ensures s'.asset.dispatchAttempts - |Tokens(s'.reservations)|
            == s.asset.dispatchAttempts - |Tokens(s.reservations)|
  {
    if s'.reservations != s.reservations {
      var r := ReservedForCall(c, s.asset, s.marker, s.now, bypass);
      CallAttempts(c, s.asset, s.marker, s.reservations, NewReservation(s, r.attempt.value, bypass), bypass);
    }
  }

  /** One step uses up as many attempts as it hands out silently and as it reserves new tokens. */
  lemma StepAttempts(c: Settings, s: State, step: Step, s': State)
    requires InOrder(s.reservations, s.asset.dispatchAttempts, s.now) && MarkerReserved(s.marker, s.reservations)
    requires Enabled(s, step) && s' == Next(c, s, step)
    ensures MarkerReserved(s'.marker, s'.reservations)
    ensures s'.asset.dispatchAttempts - |Tokens(s'.reservations)|
            == s.asset.dispatchAttempts - |Tokens(s.reservations)| + (if UsesAttemptSilently(c, s, step) then 1 else 0)
  {
    if step.Reserve? {
      ReserveAttempts(c, s, step.bypass, step.capacity, s');
    } else {
      assert s'.reservations == s.reservations;
    }
  }

  lemma {:induction false} RunAttempts(c: Settings, s: State, steps: seq<Step>, s': State)
    requires Inv(c, s) && MarkerReserved(s.marker, s.reservations) && Run(c, s, steps, s')
    ensures MarkerReserved(s'.marker, s'.reservations)
    ensures s'.asset.dispatchAttempts - |Tokens(s'.reservations)|
            == s.asset.dispatchAttempts - |Tokens(s.reservations)| + SilentAttempts(c, s, steps)
    decreases |steps|
  {
    if steps != [] {
      StepInv(c, s, steps[0]);
      StepAttempts(c, s, steps[0], Next(c, s, steps[0]));
      RunAttempts(c, Next(c, s, steps[0]), steps[1..], s');
    }
  }

  /** Every attempt used up went to a failure before the call or stands behind a client token of its own,
      so there are at most `maxAttempts` of both together. */
  lemma AttemptsAreAccounted(c: Settings, s0: State, steps: seq<Step>, s: State)
    requires Initial(s0) && Run(c, s0, steps, s)
    ensures s.asset.dispatchAttempts == SilentAttempts(c, s0, steps) + |Tokens(s.reservations)|
    ensures SilentAttempts(c, s0, steps) + |Tokens(s.reservations)| <= c.maxAttempts
  {
    InitialInv(c, s0);
    assert Tokens(s0.reservations) == {};
    RunAttempts(c, s0, steps, s);
    ReachableInv(c, s0, steps, s);
  }

  /** Once they are used up nothing is handed out any more, except again the token of an ambiguous call:
      no run from there has a silent attempt or a new token. */
  lemma ExhaustedForGood(c: Settings, s0: State, before: seq<Step>, s: State, after: seq<Step>, s': State)
    requires Initial(s0) && Run(c, s0, before, s) && Run(c, s, after, s')
    requires SilentAttempts(c, s0, before) + |Tokens(s.reservations)| >= c.maxAttempts
    ensures SilentAttempts(c, s, after) == 0
    ensures Tokens(s'.reservations) == Tokens(s.reservations)
  {
    InitialInv(c, s0);
    assert Tokens(s0.reservations) == {};
    RunAttempts(c, s0, before, s);
    RunInv(c, s0, before, s);
    RunAttempts(c, s, after, s');
    RunInv(c, s, after, s');
    TokensStay(c, s, after, s');
    SameSize(Tokens(s.reservations), Tokens(s'.reservations));
  }

  lemma {:induction false} TokensStay(c: Settings, s: State, steps: seq<Step>, s': State)
    requires Run(c, s, steps, s')
    ensures s.reservations <= s'.reservations && Tokens(s.reservations) <= Tokens(s'.reservations)
    decreases |steps|
  {
    if steps != [] {
      TokensStay(c, Next(c, s, steps[0]), steps[1..], s');
    }
    forall t | t in Tokens(s.reservations) ensures t in Tokens(s'.reservations) {
      var i :| 0 <= i < |s.reservations| && s.reservations[i].attempt == t;
      assert s'.reservations[i].attempt == t;
    }
  }

  lemma SameSize(a: set<nat>, b: set<nat>)
    requires a <= b
    ensures |a| <= |b| && (|a| == |b| ==> a == b)
  {
    assert b == a + (b - a);
  }

  /** Until then no asset is stuck: once the retry delay and an hour have passed, the budget has been refilled and
      a reservation that respects the backoff takes an attempt, a new one or the one still ambiguous. */
  lemma ReservationSucceeds(c: Settings, s0: State, steps: seq<Step>, s: State, time: nat)
    requires Initial(s0) && Run(c, s0, steps, s)
    requires s.asset.quarantined && s.asset.dispatchAttempts < c.maxAttempts && c.tasksPerHour >= 1
    requires time >= c.retryDelay + 3_600_000_000
    ensures var s' := Next(c, Next(c, s, Tick(time)), Reserve(false, true));
            && |s'.reservations| == |s.reservations| + 1 && |s'.grants| == |s.grants| + 1
            && s'.reservations[|s.reservations|].attempt in {s.asset.dispatchAttempts, s.asset.dispatchAttempts + 1}
            && s'.open == s.open + {|s.reservations|} && s'.asset.dispatchedAt == Some(s.now + time)
  {
    ReachableInv(c, s0, steps, s);
    assert s.budget.windowStartedAt <= s.now;
  }

  /** What an answer leaves in the rows: an unknown outcome leaves everything for the next call; a definite one gives
      up the marker of its attempt alone, and only a failure takes back the time of dispatch, again of its attempt
      alone. */
  lemma AnswerLeaves(c: Settings, s: State, r: nat, outcome: Outcome)
    requires Enabled(s, Answer(r, outcome))
    ensures var s' := Next(c, s, Answer(r, outcome));
            var a, m, attempt := s.asset, s.marker, s.reservations[r].attempt;
            && s'.asset.quarantined == a.quarantined && s'.asset.dispatchAttempts == a.dispatchAttempts
            && s'.asset.lastDispatchAttemptAt == a.lastDispatchAttemptAt
            && s'.asset.dispatchedAt == (if outcome.DefiniteFailure? && a.dispatchAttempts == attempt
                                         then None else a.dispatchedAt)
            && s'.marker == (if !outcome.Unknown? && m.Some? && m.value.attempts == attempt then None else m)
            && s'.open == s.open - {r}
            && (attempt in s'.settled <==> attempt in s.settled || !outcome.Unknown?)
  {}

  /** So a task that was started stays recorded: after a success no step but a reservation, a later answer to the same
      token or the exhausted attempts takes the time of dispatch away. */
  lemma SuccessIsRemembered(c: Settings, s0: State, steps: seq<Step>, s: State, r: nat, step: Step)
    requires Initial(s0) && Run(c, s0, steps, s) && Enabled(s, Answer(r, Success))
    requires s.asset.dispatchedAt.Some? && Enabled(Next(c, s, Answer(r, Success)), step)
    requires !step.Reserve? && !step.Answer?
    ensures Next(c, Next(c, s, Answer(r, Success)), step).asset.dispatchedAt
            == Some(s.reservations[|s.reservations| - 1].at)
  {
    ReachableInv(c, s0, steps, s);
  }
}
