/** The two fixed-window limiters of the back end: the request throttle and the hourly budget of
    RunTask calls. Both keep a counter and the start of its window in one locked row.

    Times are microseconds. Each transaction reads the clock once and the clock never goes back. */
module FixedWindow {
  import opened Options

  const SECOND := 1_000_000

  /** An admitted request: when, and in the window that started when. */
  datatype Grant = Grant(at: nat, window: nat)

  // ---- What both limiters keep about the requests they admitted ----

  function CountIn(log: seq<Grant>, window: nat): nat {
    if log == [] then 0
    else CountIn(log[..|log| - 1], window) + (if log[|log| - 1].window == window then 1 else 0)
  }

  function CountBetween(log: seq<Grant>, from: nat, until: nat): nat {
    if log == [] then 0
    else CountBetween(log[..|log| - 1], from, until) + (if from <= log[|log| - 1].at < until then 1 else 0)
  }

  /** Each grant lies in its window, windows start a full length apart, and none admits too many. */
  ghost predicate LogSound(log: seq<Grant>, limit: nat, length: nat) {
    && (forall i :: 0 <= i < |log| ==> log[i].window <= log[i].at < log[i].window + length)
    && (forall i, j :: 0 <= i < j < |log| ==> log[i].at <= log[j].at)
    && (forall i, j :: 0 <= i < j < |log| ==>
          log[i].window == log[j].window || log[i].window + length <= log[j].window)
    && (forall w :: CountIn(log, w) <= limit)
  }

  /** The log ends in the window the row has open, which holds at most `used` grants. */
  ghost predicate LogCurrent(log: seq<Grant>, length: nat, window: nat, used: nat, now: nat) {
    && window <= now
    && (forall i :: 0 <= i < |log| ==> log[i].at <= now)
    && (forall i :: 0 <= i < |log| ==> log[i].window == window || log[i].window + length <= window)
    && CountIn(log, window) <= used
  }

  lemma {:induction false} CountInNone(log: seq<Grant>, window: nat)
    requires forall i :: 0 <= i < |log| ==> log[i].window != window
    ensures CountIn(log, window) == 0
  {
    if log != [] { CountInNone(log[..|log| - 1], window); }
  }

  lemma GrantKeeps(log: seq<Grant>, limit: nat, length: nat, window: nat, used: nat, now: nat)
    requires LogSound(log, limit, length) && LogCurrent(log, length, window, used, now)
    requires used < limit && now < window + length
    ensures LogSound(log + [Grant(now, window)], limit, length)
    ensures LogCurrent(log + [Grant(now, window)], length, window, used + 1, now)
  {
    var log' := log + [Grant(now, window)];
    assert log'[..|log|] == log;
    forall w ensures CountIn(log', w) <= limit {
      assert CountIn(log', w) == CountIn(log, w) + (if window == w then 1 else 0);
    }
  }

  lemma NewWindowKeeps(log: seq<Grant>, length: nat, window: nat, used: nat, now: nat)
    requires LogCurrent(log, length, window, used, now) && window + length <= now && length > 0
    ensures LogCurrent(log, length, now, 0, now)
  {
    CountInNone(log, now);
  }

  lemma {:induction false} CountSplits(log: seq<Grant>, from: nat, until: nat, a: nat, b: nat)
    requires forall i :: 0 <= i < |log| && from <= log[i].at < until ==> log[i].window == a || log[i].window == b
    ensures CountBetween(log, from, until) <= CountIn(log, a) + CountIn(log, b)
  {
    if log != [] { CountSplits(log[..|log| - 1], from, until, a, b); }
  }

  lemma {:induction false} CountNone(log: seq<Grant>, from: nat, until: nat)
    requires forall i :: 0 <= i < |log| ==> !(from <= log[i].at < until)
    ensures CountBetween(log, from, until) == 0
  {
    if log != [] { CountNone(log[..|log| - 1], from, until); }
  }

  /** Any interval as long as one window meets at most two windows, so it admits at most twice the
      limit. */
  lemma SlidingBound(log: seq<Grant>, limit: nat, length: nat, from: nat)
    requires LogSound(log, limit, length)
    ensures CountBetween(log, from, from + length) <= 2 * limit
  {
    if i :| 0 <= i < |log| && from <= log[i].at < from + length {
      // Any other window met is before or after this one, and both cannot be met.
      var a := log[i].window;
      if j :| 0 <= j < |log| && from <= log[j].at < from + length && log[j].window != a {
        CountSplits(log, from, from + length, a, log[j].window);
      } else {
        CountSplits(log, from, from + length, a, a);
      }
    } else {
      CountNone(log, from, from + length);
    }
  }

  // ---- The request throttle ----

  datatype Throttle = Throttle(attempts: nat, windowStartedAt: nat, blockedUntil: Option<nat>)

  predicate Blocked(t: Throttle, now: nat) {
    t.blockedUntil.Some? && t.blockedUntil.value > now
  }

  /** The row after a request; a blocked one does not touch it. */
  function Requested(t: Throttle, now: nat, limit: nat, length: nat): Throttle {
    if Blocked(t, now) then t
    else
      Counted(if t.windowStartedAt + length <= now then Throttle(0, now, None) else t, now, limit, length)
  }

  function Counted(t: Throttle, now: nat, limit: nat, length: nat): Throttle {
    Throttle(t.attempts + 1, t.windowStartedAt,
             if t.attempts + 1 > limit then Some(now + length) else t.blockedUntil)
  }

  predicate Admits(t: Throttle, now: nat, limit: nat, length: nat) {
    !Blocked(t, now) && Requested(t, now, limit, length).blockedUntil.None?
  }

  class ApiThrottle {
    var attempts: nat
    var windowStartedAt: nat
    var blockedUntil: Option<nat>

    function View(): Throttle
      reads this
    {
      Throttle(attempts, windowStartedAt, blockedUntil)
    }

    constructor (now: nat)
      ensures View() == Throttle(0, now, None)
    {
      attempts, windowStartedAt, blockedUntil := 0, now, None;
    }

    /** The seconds to wait: 0 for an admitted request, the whole window for the one that exceeds the limit, and
        while blocked the whole seconds left, but at least one. */
    method ThrottleWait(now: nat, limit: nat, windowSeconds: nat) returns (wait: nat)
      requires windowSeconds > 0
      modifies this
      ensures var blocked := old(blockedUntil.Some? && blockedUntil.value > now);
              var restarts := old(windowStartedAt) + windowSeconds * 1_000_000 <= now;
              && (blocked ==> unchanged(this))
              && (!blocked ==>
                    && attempts == (if restarts then 1 else old(attempts) + 1)
                    && windowStartedAt == (if restarts then now else old(windowStartedAt))
                    && blockedUntil == if attempts > limit then Some(now + windowSeconds * 1_000_000)
                                       else if restarts then None else old(blockedUntil))
      ensures View() == old(Requested(View(), now, limit, windowSeconds * SECOND))
      ensures wait == 0 <==> old(Admits(View(), now, limit, windowSeconds * SECOND))
      ensures wait != 0 && !old(Blocked(View(), now)) ==> wait == windowSeconds
      ensures old(Blocked(View(), now)) ==>
                var left := old(blockedUntil.value) - now;
                (wait == 1 && left < SECOND) || wait * SECOND <= left < (wait + 1) * SECOND
    {
      if blockedUntil.Some? && blockedUntil.value > now {
        var seconds := (blockedUntil.value - now) / SECOND;
        return if seconds < 1 then 1 else seconds;
      }
      if windowStartedAt + windowSeconds * SECOND <= now {
        attempts := 0;
        windowStartedAt := now;
        blockedUntil := None;
      }
      attempts := attempts + 1;
      if attempts > limit {
        blockedUntil := Some(now + windowSeconds * SECOND);
      }
      wait := if blockedUntil.Some? then windowSeconds else 0;
    }
  }

  function Used(t: Throttle, limit: nat): nat {
    if t.attempts < limit then t.attempts else limit
  }

  /** A block ends no earlier than the window that caused it. */
  ghost predicate ThrottleSound(t: Throttle, log: seq<Grant>, limit: nat, length: nat, now: nat) {
    && LogSound(log, limit, length)
    && LogCurrent(log, length, t.windowStartedAt, Used(t, limit), now)
    && (t.blockedUntil.None? ==> t.attempts <= limit)
    && (t.blockedUntil.Some? ==> t.windowStartedAt + length <= t.blockedUntil.value)
  }

  /** What the request at `now` adds to the log. */
  function Granted(t: Throttle, now: nat, limit: nat, length: nat): seq<Grant> {
    if Admits(t, now, limit, length) then [Grant(now, Requested(t, now, limit, length).windowStartedAt)] else []
  }

  lemma CountedKeeps(t: Throttle, log: seq<Grant>, limit: nat, length: nat, now: nat)
    requires ThrottleSound(t, log, limit, length, now) && t.blockedUntil.None? && now < t.windowStartedAt + length
    ensures t.attempts < limit ==>
              ThrottleSound(Counted(t, now, limit, length), log + [Grant(now, t.windowStartedAt)], limit, length, now)
    ensures t.attempts >= limit ==> ThrottleSound(Counted(t, now, limit, length), log, limit, length, now)
  {
    var t' := Counted(t, now, limit, length);
    if t.attempts < limit {
      GrantKeeps(log, limit, length, t.windowStartedAt, t.attempts, now);
      assert Used(t', limit) == t.attempts + 1 && t'.windowStartedAt == t.windowStartedAt;
    } else {
      assert Used(t', limit) == Used(t, limit) && t'.windowStartedAt == t.windowStartedAt;
    }
  }

  lemma RequestKeeps(t: Throttle, log: seq<Grant>, limit: nat, length: nat, before: nat, now: nat)
    requires length > 0 && before <= now && ThrottleSound(t, log, limit, length, before)
    ensures ThrottleSound(Requested(t, now, limit, length), log + Granted(t, now, limit, length), limit, length, now)
  {
    assert log + [] == log;
    if !Blocked(t, now) {
      if t.windowStartedAt + length <= now {
        NewWindowKeeps(log, length, t.windowStartedAt, Used(t, limit), now);
        CountedKeeps(Throttle(0, now, None), log, limit, length, now);
      } else {
        CountedKeeps(t, log, limit, length, now);
      }
    }
  }

  /** The grants of a run of requests at the given times. */
  function ThrottleLog(t: Throttle, times: seq<nat>, limit: nat, length: nat): seq<Grant>
    decreases |times|
  {
    if times == [] then []
    else Granted(t, times[0], limit, length)
         + ThrottleLog(Requested(t, times[0], limit, length), times[1..], limit, length)
  }

  predicate Monotone(times: seq<nat>, from: nat) {
    && (forall i :: 0 <= i < |times| ==> from <= times[i])
    && (forall i, j :: 0 <= i < j < |times| ==> times[i] <= times[j])
  }

  lemma LogFromFirst(t: Throttle, log: seq<Grant>, times: seq<nat>, limit: nat, length: nat)
    requires times != []
    ensures log + ThrottleLog(t, times, limit, length)
            == log + Granted(t, times[0], limit, length)
               + ThrottleLog(Requested(t, times[0], limit, length), times[1..], limit, length)
  {}

  lemma {:induction false} ThrottleRun(
    t: Throttle, log: seq<Grant>, times: seq<nat>, limit: nat, length: nat, now: nat)
    requires length > 0 && Monotone(times, now) && ThrottleSound(t, log, limit, length, now)
    ensures LogSound(log + ThrottleLog(t, times, limit, length), limit, length)
    decreases |times|
  {
    if times == [] {
      assert log + [] == log;
    } else {
      var t', granted := Requested(t, times[0], limit, length), Granted(t, times[0], limit, length);
      RequestKeeps(t, log, limit, length, now, times[0]);
      ThrottleRun(t', log + granted, times[1..], limit, length, times[0]);
      LogFromFirst(t, log, times, limit, length);
    }
  }

  /** For a throttle created at `now` and any later requests: windows start a full length apart, each
      admits at most `limit`, and any interval of one window length at most twice that. */
  lemma ThrottleLimits(times: seq<nat>, limit: nat, length: nat, now: nat, from: nat)
    requires length > 0 && Monotone(times, now)
    ensures var log := ThrottleLog(Throttle(0, now, None), times, limit, length);
            LogSound(log, limit, length) && CountBetween(log, from, from + length) <= 2 * limit
  {
    NewThrottleRun(times, limit, length, now);
    SlidingBound(ThrottleLog(Throttle(0, now, None), times, limit, length), limit, length, from);
  }

  lemma NewThrottleRun(times: seq<nat>, limit: nat, length: nat, now: nat)
    requires length > 0 && Monotone(times, now)
    ensures LogSound(ThrottleLog(Throttle(0, now, None), times, limit, length), limit, length)
  {
    var t := Throttle(0, now, None);
    assert ThrottleSound(t, [], limit, length, now);
    ThrottleRun(t, [], times, limit, length, now);
    assert [] + ThrottleLog(t, times, limit, length) == ThrottleLog(t, times, limit, length);
  }

  // ---- Which requests are admitted ----

  function ThrottleAfter(t: Throttle, times: seq<nat>, limit: nat, length: nat): Throttle
    decreases |times|
  {
    if times == [] then t else ThrottleAfter(Requested(t, times[0], limit, length), times[1..], limit, length)
  }

  lemma {:induction false} RunsConcat(t: Throttle, first: seq<nat>, rest: seq<nat>, limit: nat, length: nat)
    ensures var t1 := ThrottleAfter(t, first, limit, length);
            && ThrottleLog(t, first + rest, limit, length)
               == ThrottleLog(t, first, limit, length) + ThrottleLog(t1, rest, limit, length)
            && ThrottleAfter(t, first + rest, limit, length) == ThrottleAfter(t1, rest, limit, length)
    decreases |first|
  {
    if first == [] {
      assert first + rest == rest;
    } else {
      assert (first + rest)[1..] == first[1..] + rest;
      RunsConcat(Requested(t, first[0], limit, length), first[1..], rest, limit, length);
    }
  }

  function AllGranted(times: seq<nat>, window: nat): seq<Grant> {
    seq(|times|, i requires 0 <= i < |times| => Grant(times[i], window))
  }

  lemma {:induction false} WithinLimit(t: Throttle, times: seq<nat>, limit: nat, length: nat)
    requires t.blockedUntil.None? && t.attempts + |times| <= limit
    requires forall i :: 0 <= i < |times| ==> times[i] < t.windowStartedAt + length
    ensures ThrottleLog(t, times, limit, length) == AllGranted(times, t.windowStartedAt)
    ensures ThrottleAfter(t, times, limit, length) == Throttle(t.attempts + |times|, t.windowStartedAt, None)
    decreases |times|
  {
    if times != [] {
      WithinLimit(Requested(t, times[0], limit, length), times[1..], limit, length);
      assert AllGranted(times, t.windowStartedAt)
          == [Grant(times[0], t.windowStartedAt)] + AllGranted(times[1..], t.windowStartedAt);
    }
  }

  lemma {:induction false} WhileBlocked(t: Throttle, times: seq<nat>, limit: nat, length: nat)
    requires t.blockedUntil.Some? && forall i :: 0 <= i < |times| ==> times[i] < t.blockedUntil.value
    ensures ThrottleLog(t, times, limit, length) == [] && ThrottleAfter(t, times, limit, length) == t
    decreases |times|
  {
    if times != [] { WhileBlocked(t, times[1..], limit, length); }
  }

  /** The limit is granted in full, and what exceeds it costs exactly one window: the first `limit` requests of
      a window are admitted, the next one is refused, all requests of the window length that starts with it
      are refused too, and the first one after that is admitted again. */
  lemma LimitThenBlock(times: seq<nat>, refused: nat, later: seq<nat>, next: nat, limit: nat, length: nat, now: nat)
    requires limit > 0 && |times| == limit && length > 0 && now <= refused < now + length
    requires forall i :: 0 <= i < |times| ==> times[i] < now + length
    requires (forall i :: 0 <= i < |later| ==> later[i] < refused + length) && refused + length <= next
    ensures ThrottleLog(Throttle(0, now, None), times + ([refused] + (later + [next])), limit, length)
            == AllGranted(times, now) + [Grant(next, next)]
  {
    var t1 := Throttle(limit, now, None);
    var t2 := Requested(t1, refused, limit, length);
    WithinLimit(Throttle(0, now, None), times, limit, length);
    RunsConcat(Throttle(0, now, None), times, [refused] + (later + [next]), limit, length);
    assert ([refused] + (later + [next]))[1..] == later + [next];
    WhileBlocked(t2, later, limit, length);
    RunsConcat(t2, later, [next], limit, length);
    var t3 := Requested(t2, next, limit, length);
    assert [next][1..] == [];
    assert ThrottleLog(t3, [], limit, length) == [];
  }

  /** While nothing is blocked, the counter is the number of requests admitted in the open window. */
  ghost predicate CountExact(t: Throttle, log: seq<Grant>) {
    t.blockedUntil.None? ==> t.attempts == CountIn(log, t.windowStartedAt)
  }

  lemma RequestCounts(t: Throttle, log: seq<Grant>, limit: nat, length: nat, before: nat, now: nat)
    requires length > 0 && before <= now && ThrottleSound(t, log, limit, length, before) && CountExact(t, log)
    ensures CountExact(Requested(t, now, limit, length), log + Granted(t, now, limit, length))
  {
    var granted := Granted(t, now, limit, length);
    assert log + [] == log;
    if granted != [] { assert (log + granted)[..|log|] == log; }
    if !Blocked(t, now) && t.windowStartedAt + length <= now {
      NewWindowKeeps(log, length, t.windowStartedAt, Used(t, limit), now);
      assert CountIn(log, now) == 0;
    }
  }

  lemma {:induction false} RunCounts(
    t: Throttle, log: seq<Grant>, times: seq<nat>, limit: nat, length: nat, now: nat, until: nat)
    requires length > 0 && Monotone(times, now) && now <= until && forall i :: 0 <= i < |times| ==> times[i] <= until
    requires ThrottleSound(t, log, limit, length, now) && CountExact(t, log)
    ensures var t', log' := ThrottleAfter(t, times, limit, length), log + ThrottleLog(t, times, limit, length);
            CountExact(t', log') && (t'.blockedUntil.Some? ==> t'.windowStartedAt + length <= t'.blockedUntil.value)
    decreases |times|
  {
    if times == [] {
      assert log + [] == log;
    } else {
      var t1, granted := Requested(t, times[0], limit, length), Granted(t, times[0], limit, length);
      RequestKeeps(t, log, limit, length, now, times[0]);
      RequestCounts(t, log, limit, length, now, times[0]);
      RunCounts(t1, log + granted, times[1..], limit, length, times[0], until);
      LogFromFirst(t, log, times, limit, length);
    }
  }

  /** After any run a request is admitted exactly if the limit is positive and the block is over, or there is
      none and the open window has ended or has admitted fewer requests than the limit. */
  lemma AdmittedExactly(times: seq<nat>, limit: nat, length: nat, now: nat, next: nat)
    requires length > 0 && Monotone(times, now) && now <= next && forall i :: 0 <= i < |times| ==> times[i] <= next
    ensures var t0 := Throttle(0, now, None);
            var t, log := ThrottleAfter(t0, times, limit, length), ThrottleLog(t0, times, limit, length);
            Admits(t, next, limit, length) <==>
              && limit > 0
              && if t.blockedUntil.Some? then t.blockedUntil.value <= next
                 else t.windowStartedAt + length <= next || CountIn(log, t.windowStartedAt) < limit
  {
    var t0 := Throttle(0, now, None);
    assert ThrottleSound(t0, [], limit, length, now);
    RunCounts(t0, [], times, limit, length, now, next);
    assert [] + ThrottleLog(t0, times, limit, length) == ThrottleLog(t0, times, limit, length);
  }

  // ---- The hourly budget of RunTask calls ----

  datatype Budget = Budget(attempts: nat, windowStartedAt: nat)

  /** The budget row after it was locked: an hour-old window starts over. */
  function Locked(b: Budget, now: nat, length: nat): Budget {
    if b.windowStartedAt + length <= now then Budget(0, now) else b
  }

  ghost predicate BudgetSound(b: Budget, log: seq<Grant>, limit: nat, length: nat, now: nat) {
    && LogSound(log, limit, length)
    && LogCurrent(log, length, b.windowStartedAt, b.attempts, now)
  }

  /** Locking keeps the log sound, and so does spending one call while the budget has one left. */
  lemma BudgetKeeps(b: Budget, log: seq<Grant>, limit: nat, length: nat, before: nat, now: nat)
    requires length > 0 && before <= now && BudgetSound(b, log, limit, length, before)
    ensures BudgetSound(Locked(b, now, length), log, limit, length, now)
    ensures var l := Locked(b, now, length);
            l.attempts < limit ==>
              BudgetSound(l.(attempts := l.attempts + 1), log + [Grant(now, l.windowStartedAt)], limit, length, now)
  {
    var l := Locked(b, now, length);
    if b.windowStartedAt + length <= now {
      NewWindowKeeps(log, length, b.windowStartedAt, b.attempts, now);
    }
    if l.attempts < limit {
      GrantKeeps(log, limit, length, l.windowStartedAt, l.attempts, now);
    }
  }
}
