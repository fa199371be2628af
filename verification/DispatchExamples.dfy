/** How far RunTask calls can stray: the exact lateness and spread of the calls of one token, and runs in which a
    settled token goes out and the attempts sent decrease. */
module DispatchExamples {
  import opened Options
  import opened FixedWindow
  import opened DispatchTokens

  lemma RunStep(c: Settings, s: State, step: Step, rest: seq<Step>, s': State)
    requires Enabled(s, step) && Run(c, Next(c, s, step), rest, s')
    ensures Run(c, s, [step] + rest, s')
  {
    assert ([step] + rest)[1..] == rest;
  }

  // ---- Lateness and spread under a bound on the delay of calls ----

  /** Every call goes out at most `d` after its reservation. */
  ghost predicate DelaysWithin(s: State, d: nat) {
    forall i :: 0 <= i < |s.sends| && s.sends[i].reservation < |s.reservations| ==> Delay(s, i) <= d
  }

  /** Call `i` goes out `late` or more after the reuse window of its token, which its first reservation opened. */
  ghost predicate IsLate(c: Settings, s: State, i: nat, late: nat) {
    && i < |s.sends| && s.sends[i].reservation < |s.reservations|
    && exists f: nat :: IsFirst(s.reservations, f, s.sends[i].reservation)
                        && s.sends[i].at >= s.reservations[f].at + c.reuseWindow + late
  }

  /** Calls `i` and `j` carry one token from different reservations and are `gap` or more apart. */
  ghost predicate AreApart(s: State, i: nat, j: nat, gap: nat) {
    && i < |s.sends| && j < |s.sends|
    && s.sends[i].reservation < |s.reservations| && s.sends[j].reservation < |s.reservations|
    && s.sends[i].reservation != s.sends[j].reservation && TokenOf(s, i) == TokenOf(s, j)
    && s.sends[j].at >= s.sends[i].at + gap
  }

  ghost predicate LateCallReached(c: Settings, d: nat, late: nat) {
    exists s0, steps, s, i :: Initial(s0) && Run(c, s0, steps, s) && DelaysWithin(s, d) && IsLate(c, s, i, late)
  }

  ghost predicate GapReached(c: Settings, d: nat, gap: nat) {
    exists s0, steps, s, i, j :: Initial(s0) && Run(c, s0, steps, s) && DelaysWithin(s, d) && AreApart(s, i, j, gap)
  }

  // The run that is latest: a token is reserved and called, reserved again in the last moment of its reuse window,
  // and called once more after the delay. The second reservation falls into a new hour of the budget.

  function Start(): State {
    State(HOUR - 1, Asset(true, 0, None, None), None, Budget(0, 0), [], {}, [], map[], [])
  }

  function First(): Reservation {
    Reservation(1, HOUR - 1, 0, true)
  }

  function Second(c: Settings): Reservation
    requires Accepted(c)
  {
    Reservation(1, HOUR + c.reuseWindow - 2, 1, true)
  }

  function Called(c: Settings): State {
    State(HOUR - 1, Asset(true, 1, Some(HOUR - 1), Some(HOUR - 1)), Some(Marker(1, HOUR - 1)), Budget(1, 0),
          [First()], {0}, [Sending(0, HOUR - 1)], map[], [Grant(HOUR - 1, 0)])
  }

  function ReservedAgain(c: Settings): State
    requires Accepted(c)
  {
    var t := HOUR + c.reuseWindow - 2;
    State(t, Asset(true, 1, Some(t), Some(t)), Some(Marker(1, HOUR - 1)), Budget(1, t),
          [First(), Second(c)], {0, 1}, [Sending(0, HOUR - 1)], map[], [Grant(HOUR - 1, 0), Grant(t, t)])
  }

  function CalledTwice(c: Settings, d: nat): State
    requires Accepted(c)
  {
    var t := HOUR + c.reuseWindow - 2;
    ReservedAgain(c).(now := t + d, sends := [Sending(0, HOUR - 1), Sending(1, t + d)])
  }

  lemma Calls(c: Settings, rest: seq<Step>, s': State)
    requires Accepted(c) && c.maxAttempts >= 1 && Run(c, Called(c), rest, s')
    ensures exists steps :: Run(c, Start(), steps, s')
  {
    var reserve := Reserve(true, true);
    var s1 := Next(c, Start(), reserve);
    assert s1 == Called(c).(sends := []);
    assert Next(c, s1, Send(0)) == Called(c);
    RunStep(c, s1, Send(0), rest, s');
    RunStep(c, Start(), reserve, [Send(0)] + rest, s');
  }

  lemma ReservesAgain(c: Settings, rest: seq<Step>, s': State)
    requires Accepted(c) && c.maxAttempts >= 1 && Run(c, ReservedAgain(c), rest, s')
    ensures exists steps :: Run(c, Called(c), steps, s')
  {
    var wait, reserve := Tick(c.reuseWindow - 1), Reserve(true, true);
    var s1 := Next(c, Called(c), wait);
    assert s1 == Called(c).(now := HOUR + c.reuseWindow - 2);
    assert Locked(s1.budget, s1.now, HOUR) == Budget(0, s1.now);
    assert Reuses(c, s1.asset, s1.marker, s1.now);
    assert Next(c, s1, reserve) == ReservedAgain(c);
    RunStep(c, s1, reserve, rest, s');
    RunStep(c, Called(c), wait, [reserve] + rest, s');
  }

  lemma LatestRun(c: Settings, d: nat)
    requires Accepted(c) && c.maxAttempts >= 1
    ensures exists steps :: Run(c, Start(), steps, CalledTwice(c, d))
    ensures Initial(Start()) && DelaysWithin(CalledTwice(c, d), d)
  {
    var end := CalledTwice(c, d);
    var s1 := Next(c, ReservedAgain(c), Tick(d));
    assert Next(c, s1, Send(1)) == end;
    RunStep(c, s1, Send(1), [], end);
    RunStep(c, ReservedAgain(c), Tick(d), [Send(1)], end);
    ReservesAgain(c, [Tick(d)] + [Send(1)], end);
    var rest :| Run(c, Called(c), rest, end);
    Calls(c, rest, end);
  }

  /** When an expired token goes out: with calls delayed by at most `d`, some run makes a call `late` after the
      reuse window of its token exactly if `late` is less than `d`. So no expired token goes out exactly if no
      call is delayed. */
  lemma ExpiredTokenGoesOut(c: Settings, d: nat, late: nat)
    requires Accepted(c) && c.maxAttempts >= 1
    ensures LateCallReached(c, d, late) <==> late < d
  {
    if late < d {
      LatestRun(c, d);
      var s := CalledTwice(c, d);
      assert IsFirst(s.reservations, 0, 1);
      assert IsLate(c, s, 1, late);
    }
    forall s0, steps, s, i | Initial(s0) && Run(c, s0, steps, s) && DelaysWithin(s, d) && IsLate(c, s, i, late)
      ensures late < d
    {
      LatenessBound(c, s0, steps, s, i, late, d);
    }
  }

  lemma LatenessBound(c: Settings, s0: State, steps: seq<Step>, s: State, i: nat, late: nat, d: nat)
    requires Initial(s0) && Run(c, s0, steps, s) && DelaysWithin(s, d) && IsLate(c, s, i, late) && c.reuseWindow > 0
    ensures late < d
  {
    TokensAreBounded(c, s0, steps, s);
    var r := s.sends[i].reservation;
    var f: nat :| IsFirst(s.reservations, f, r) && s.sends[i].at >= s.reservations[f].at + c.reuseWindow + late;
    assert s.reservations[r].at < s.reservations[f].at + c.reuseWindow;
    assert Delay(s, i) <= d;
  }

  /** How far calls of one token spread: with calls delayed by at most `d`, some run has two calls of one token
      from different reservations `gap` apart exactly if `gap` is less than the reuse window and `d` together. */
  lemma CallsOfATokenSpread(c: Settings, d: nat, gap: nat)
    requires Accepted(c) && c.maxAttempts >= 1
    ensures GapReached(c, d, gap) <==> gap < c.reuseWindow + d
  {
    if gap < c.reuseWindow + d {
      LatestRun(c, d);
      assert AreApart(CalledTwice(c, d), 0, 1, gap);
    }
    forall s0, steps, s, i, j | Initial(s0) && Run(c, s0, steps, s) && DelaysWithin(s, d) && AreApart(s, i, j, gap)
      ensures gap < c.reuseWindow + d
    {
      SendsFollowReservations(c, s0, steps, s, i, j);
      assert Delay(s, j) <= d;
    }
  }

  // ---- Two dispatchers at once, under the default settings ----

  const DEFAULTS := Settings(5, 600 * SECOND, 900 * SECOND, 6)

  function Fresh(): State {
    State(0, Asset(true, 0, None, None), None, Budget(0, 0), [], {}, [], map[], [])
  }

  function BothReserved(): State {
    var g := Grant(0, 0);
    State(0, Asset(true, 1, Some(0), Some(0)), Some(Marker(1, 0)), Budget(2, 0),
          [Reservation(1, 0, 0, true), Reservation(1, 0, 1, true)], {0, 1}, [], map[], [g, g])
  }

  /** Two reconciliations reserve the asset before either calls. */
  lemma BothReserve(rest: seq<Step>, s': State)
    requires Run(DEFAULTS, BothReserved(), rest, s')
    ensures exists steps :: Run(DEFAULTS, Fresh(), steps, s')
  {
    var reserve := Reserve(true, true);
    var s1 := Next(DEFAULTS, Fresh(), reserve);
    assert s1 == State(0, Asset(true, 1, Some(0), Some(0)), Some(Marker(1, 0)), Budget(1, 0),
                       [Reservation(1, 0, 0, true)], {0}, [], map[], [Grant(0, 0)]);
    assert Next(DEFAULTS, s1, reserve) == BothReserved();
    RunStep(DEFAULTS, s1, reserve, rest, s');
    RunStep(DEFAULTS, Fresh(), reserve, [reserve] + rest, s');
  }

  /** Both reserve token 1; the second one calls it and succeeds; then the first one calls it. */
  lemma SettledTokenWentOut()
    ensures Accepted(DEFAULTS)
    ensures exists s0, steps, s :: Initial(s0) && Run(DEFAULTS, s0, steps, s)
                                   && !SettledAtRest(s.sends, s.reservations, s.settled)
  {
    var answer := Answer(1, Success);
    var s2 := BothReserved();
    var s3 := Next(DEFAULTS, s2, Send(1));
    assert s3.sends[0].reservation == 1 && WasSent(s3.sends, 1);
    var s4 := Next(DEFAULTS, s3, answer);
    var s5 := Next(DEFAULTS, s4, Send(0));
    RunStep(DEFAULTS, s4, Send(0), [], s5);
    RunStep(DEFAULTS, s3, answer, [Send(0)], s5);
    RunStep(DEFAULTS, s2, Send(1), [answer] + [Send(0)], s5);
    BothReserve([Send(1)] + ([answer] + [Send(0)]), s5);
    assert Initial(Fresh());
    assert s5.settled[1].sent == 1 && s5.sends[1].reservation == 0 && s5.reservations[0].attempt == 1;
  }

  ghost predicate Decreases(s: State) {
    exists i, j :: 0 <= i < j < |s.sends| && s.sends[i].reservation < |s.reservations|
                   && s.sends[j].reservation < |s.reservations| && TokenOf(s, i) > TokenOf(s, j)
  }

  /** If the second call fails definitely, a third dispatcher calls token 2 before the first one calls 1. */
  lemma AttemptsSentDecrease()
    ensures Accepted(DEFAULTS)
    ensures exists s0, steps, s :: Initial(s0) && Run(DEFAULTS, s0, steps, s) && Decreases(s)
  {
    var failed, reserve := Answer(1, DefiniteFailure), Reserve(true, true);
    var s2 := BothReserved();
    var s3 := Next(DEFAULTS, s2, Send(1));
    assert s3.sends[0].reservation == 1 && WasSent(s3.sends, 1);
    var s4 := Next(DEFAULTS, s3, failed);
    var s5 := Next(DEFAULTS, s4, reserve);
    assert s5.reservations[2].attempt == 2;
    var s6 := Next(DEFAULTS, s5, Send(2));
    var s7 := Next(DEFAULTS, s6, Send(0));
    RunStep(DEFAULTS, s6, Send(0), [], s7);
    RunStep(DEFAULTS, s5, Send(2), [Send(0)], s7);
    RunStep(DEFAULTS, s4, reserve, [Send(2)] + [Send(0)], s7);
    RunStep(DEFAULTS, s3, failed, [reserve] + ([Send(2)] + [Send(0)]), s7);
    RunStep(DEFAULTS, s2, Send(1), [failed] + ([reserve] + ([Send(2)] + [Send(0)])), s7);
    BothReserve([Send(1)] + ([failed] + ([reserve] + ([Send(2)] + [Send(0)]))), s7);
    assert Initial(Fresh());
    assert TokenOf(s7, 1) == 2 && TokenOf(s7, 2) == 1;
    assert Decreases(s7);
  }
}
