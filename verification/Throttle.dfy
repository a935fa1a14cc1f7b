/** The credential throttle: five failures in a window block all attempts for a
    cooldown. Times are in nanoseconds, the resolution of the clock. */
module Throttle {
  import opened Artifacts

  const SECOND: nat := 1_000_000_000
  const THROTTLE_WINDOW: nat := 900_000_000_000
  const THROTTLE_LIMIT: nat := 5
  const THROTTLE_COOLDOWN: nat := 900_000_000_000

  /** The throttle row. */
  datatype State = State(windowStarted: Option<nat>, failures: nat, blockedUntil: Option<nat>)

  const Initial := State(None, 0, None)

  predicate IsBlocked(s: State, now: nat) {
    s.blockedUntil.Some? && s.blockedUntil.value > now
  }

  predicate WithinWindow(s: State, now: nat) {
    s.windowStarted.Some? && (now < s.windowStarted.value || now - s.windowStarted.value < THROTTLE_WINDOW)
  }

  /** The row after a failed verification. */
  function Failed(s: State, now: nat): State {
    var count := if WithinWindow(s, now) then s.failures + 1 else 1;
    State(
      if WithinWindow(s, now) then s.windowStarted else Some(now),
      count,
      if count >= THROTTLE_LIMIT then Some(now + THROTTLE_COOLDOWN) else None)
  }

  /** What every row satisfies once the clock reads `now`: the fifth failure sets the
      block, nothing else does, and the block outlives the window. */
  ghost predicate RowOk(s: State, now: nat) {
    && s.failures <= THROTTLE_LIMIT
    && (s.failures == THROTTLE_LIMIT <==> s.blockedUntil.Some?)
    && (s.failures > 0 <==> s.windowStarted.Some?)
    && (s.windowStarted.Some? ==> s.windowStarted.value <= now)
    && (s.blockedUntil.Some? ==> s.windowStarted.value + THROTTLE_WINDOW <= s.blockedUntil.value <= now + THROTTLE_COOLDOWN)
  }

  lemma FailureKeepsRow(s: State, before: nat, now: nat)
    requires RowOk(s, before) && before <= now && !IsBlocked(s, now)
    ensures RowOk(Failed(s, now), now)
  {
  }

  /** A failure counts in a window of fifteen minutes from its first failure, and blocks every
      attempt of the next fifteen minutes exactly if it is the fifth. */
  lemma FifthFailureBlocks(s: State, before: nat, t: nat, now: nat)
    requires RowOk(s, before) && before <= t <= now && !IsBlocked(s, t)
    ensures var joins := s.windowStarted.Some? && t < s.windowStarted.value + 900 * SECOND;
            && Failed(s, t).failures == (if joins then s.failures + 1 else 1)
            && Failed(s, t).windowStarted == (if joins then s.windowStarted else Some(t))
    ensures IsBlocked(Failed(s, t), now) <==> Failed(s, t).failures == 5 && now < t + 900 * SECOND
  {
  }

  /** The row, shared by login and password change. */
  class CredentialGuard {
    var row: State
    ghost var clock: nat

    ghost predicate Valid()
      reads this
    {
      RowOk(row, clock)
    }

    constructor ()
      ensures Valid() && row == Initial && clock == 0
    {
      row, clock := Initial, 0;
    }

    /** ensure_not_throttled: nothing, or the remaining cooldown in seconds, rounded down but
        at least one. Because it is rounded down, waiting as long as the answer says is
        enough exactly if at most one second or a whole number of seconds remains. */
    method EnsureNotThrottled(now: nat) returns (cooldown: Option<nat>)
      requires Valid() && clock <= now
      ensures cooldown.Some? <==> IsBlocked(row, now)
      ensures cooldown.Some? ==> 1 <= cooldown.value <= 900
      ensures cooldown.Some? ==>
                var left := row.blockedUntil.value - now;
                && left < (cooldown.value + 1) * SECOND
                && (cooldown.value * SECOND <= left || cooldown.value == 1)
                && (!IsBlocked(row, now + cooldown.value * SECOND) <==> left <= SECOND || left % SECOND == 0)
    {
      cooldown := None;
      if row.blockedUntil.Some? && row.blockedUntil.value > now {
        var seconds := (row.blockedUntil.value - now) / SECOND;
        cooldown := Some(if seconds > 1 then seconds else 1);
      }
    }

    /** record_credential_failure */
    method RecordFailure(now: nat)
      requires Valid() && clock <= now && !IsBlocked(row, now)
      modifies this
      ensures Valid() && clock == now && row == Failed(old(row), now)
    {
      FailureKeepsRow(row, clock, now);
      row := Failed(row, now);
      clock := now;
    }

    /** A login or password change attempt. A success clears the row. */
    method Attempt(now: nat, correct: bool) returns (verified: bool)
      requires Valid() && clock <= now
      modifies this
      ensures Valid() && clock == now
      ensures verified <==> !old(IsBlocked(row, now))
      ensures row == if !verified then old(row) else if correct then Initial else Failed(old(row), now)
    {
      var cooldown := EnsureNotThrottled(now);
      verified := cooldown.None?;
      if verified {
        if correct {
          row := Initial;
        } else {
          RecordFailure(now);
        }
      }
      clock := now;
    }
  }

  // ---------- How many guesses get through ----------

  /** The times of the failed verifications among wrong attempts at `times`. */
  function Failures(s: State, times: seq<nat>): seq<nat>
    decreases |times|
  {
    if times == [] then []
    else if IsBlocked(s, times[0]) then Failures(s, times[1..])
    else [times[0]] + Failures(Failed(s, times[0]), times[1..])
  }

  ghost predicate Monotone(start: nat, times: seq<nat>) {
    && (forall i :: 0 <= i < |times| ==> start <= times[i])
    && (forall i, j :: 0 <= i < j < |times| ==> times[i] <= times[j])
  }

  /** How many more failures the row allows before `t + 900`, where `t` is not after now:
      none while blocked beyond it, the rest of a window that reaches it, or the rest of
      an older window but one, and a whole new window. */
  function Allowance(s: State, t: nat): nat
    requires s.windowStarted.Some? && s.failures <= THROTTLE_LIMIT
  {
    if s.failures == THROTTLE_LIMIT then 0
    else if s.windowStarted.value >= t then THROTTLE_LIMIT - s.failures
    else 2 * THROTTLE_LIMIT - 1 - s.failures
  }

  /** The origin `t` is sound for the row: a block reaches `t + 900`. */
  ghost predicate Anchored(s: State, t: nat, now: nat) {
    && RowOk(s, now) && s.windowStarted.Some?
    && (s.blockedUntil.Some? ==> t + THROTTLE_WINDOW <= s.blockedUntil.value)
  }

  /** The full quarters of an hour between `t` and `x`. */
  function Quarters(x: nat, t: nat): nat
    decreases x - t
  {
    if x < t + THROTTLE_WINDOW then 0 else 1 + Quarters(x, t + THROTTLE_WINDOW)
  }

  lemma {:induction false} QuartersIsDivision(x: nat, t: nat)
    requires t <= x
    ensures Quarters(x, t) == (x - t) / THROTTLE_WINDOW
    decreases x - t
  {
    if x >= t + THROTTLE_WINDOW {
      QuartersIsDivision(x, t + THROTTLE_WINDOW);
      assert (x - t) / THROTTLE_WINDOW == (x - (t + THROTTLE_WINDOW)) / THROTTLE_WINDOW + 1;
    }
  }

  /** The whole count: after any start, each further quarter of an hour allows at most
      five failures beyond the allowance. */
  lemma {:induction false} FailuresBounded(s: State, t: nat, now: nat, times: seq<nat>, j: nat)
    requires Anchored(s, t, now) && t <= now && Monotone(now, times) && j < |Failures(s, times)|
    ensures t <= now <= Failures(s, times)[j]
    ensures j + 1 <= Allowance(s, t) + THROTTLE_LIMIT * Quarters(Failures(s, times)[j], t)
    decreases |times|
  {
    var a := times[0];
    if IsBlocked(s, a) {
      FailuresBounded(s, t, now, times[1..], j);
    } else {
      var s' := Failed(s, a);
      FailureKeepsRow(s, now, a);
      AllowanceStep(s, t, now, a);
      if a < t + THROTTLE_WINDOW {
        if j > 0 { FailuresBounded(s', t, a, times[1..], j - 1); }
      } else {
        if j > 0 { FailuresBounded(s', t + THROTTLE_WINDOW, a, times[1..], j - 1); }
      }
    }
  }

  /** A failure uses up one of the allowance, or a quarter of an hour has passed. */
  lemma AllowanceStep(s: State, t: nat, now: nat, a: nat)
    requires Anchored(s, t, now) && t <= now <= a && !IsBlocked(s, a)
    ensures a < t + THROTTLE_WINDOW ==> Anchored(Failed(s, a), t, a) && 1 + Allowance(Failed(s, a), t) <= Allowance(s, t)
    ensures a >= t + THROTTLE_WINDOW ==>
              && Anchored(Failed(s, a), t + THROTTLE_WINDOW, a)
              && 1 + Allowance(Failed(s, a), t + THROTTLE_WINDOW) <= Allowance(s, t) + THROTTLE_LIMIT
  {
  }

  /** At most eight failures in any half-open quarter of an hour, and at most three more
      than five per started quarter in any span. The span starts with a failure at `t`,
      in any row `s`, and ends with failure `j` after it. */
  lemma SpanBound(s: State, before: nat, t: nat, times: seq<nat>, j: nat)
    requires RowOk(s, before) && before <= t && !IsBlocked(s, t)
    requires Monotone(t, times) && j < |Failures(Failed(s, t), times)|
    ensures var last := Failures(Failed(s, t), times)[j];
            && t <= last
            && 1 + (j + 1) <= 5 * ((last - t) / (900 * SECOND) + 1) + 3
            && (last < t + 900 * SECOND ==> 1 + (j + 1) <= 8)
  {
    FailureKeepsRow(s, before, t);
    FailuresBounded(Failed(s, t), t, t, times, j);
    QuartersIsDivision(Failures(Failed(s, t), times)[j], t);
  }

  /** The tighter bound: five per started quarter of an hour. */
  ghost predicate FivePerQuarter(s: State, t: nat) {
    forall times, j :: Monotone(t, times) && 0 <= j < |Failures(s, times)| ==>
      t <= Failures(s, times)[j]
      && 1 + (j + 1) <= 5 * ((Failures(s, times)[j] - t) / (900 * SECOND) + 1)
  }

  /** Five attempts at the moment the window expires all get through. */
  lemma FiveAtOnce(s: State, now: nat, a: nat)
    requires RowOk(s, now) && now <= a && s.windowStarted.Some? && s.blockedUntil.None? && a == s.windowStarted.value + THROTTLE_WINDOW
    ensures Failures(s, [a, a, a, a, a]) == [a, a, a, a, a]
    ensures Monotone(now, [a, a, a, a, a])
  {
    var s1 := Failed(s, a);
    var s2, s3, s4 := Failed(s1, a), Failed(Failed(s1, a), a), Failed(Failed(Failed(s1, a), a), a);
    assert s1 == State(Some(a), 1, None) && s2 == State(Some(a), 2, None) && s3 == State(Some(a), 3, None) && s4 == State(Some(a), 4, None);
    assert [a, a, a, a, a][1..] == [a, a, a, a] && [a, a, a, a][1..] == [a, a, a] && [a, a, a][1..] == [a, a] && [a, a][1..] == [a] && [a][1..] == [];
    assert Failures(s4, [a]) == [a];
    assert Failures(s3, [a, a]) == [a, a];
    assert Failures(s2, [a, a, a]) == [a, a, a];
    assert Failures(s1, [a, a, a, a]) == [a, a, a, a];
  }

  /** Exactly when five per started quarter holds for every future of a failure at `t`:
      if and only if that failure opened its window, or shares its instant, or set the
      block. Otherwise the rest of the window can be skipped and the next one used. */
  lemma FivePerQuarterIff(s0: State, before: nat, t: nat)
    requires RowOk(s0, before) && before <= t && !IsBlocked(s0, t)
    ensures FivePerQuarter(Failed(s0, t), t) <==>
            Failed(s0, t).windowStarted == Some(t) || Failed(s0, t).failures == 5
  {
    var s := Failed(s0, t);
    FailureKeepsRow(s0, before, t);
    if s.windowStarted.value == t || s.failures == THROTTLE_LIMIT {
      forall times, j | Monotone(t, times) && 0 <= j < |Failures(s, times)|
        ensures t <= Failures(s, times)[j]
        ensures 1 + (j + 1) <= THROTTLE_LIMIT * ((Failures(s, times)[j] - t) / THROTTLE_WINDOW + 1)
      {
        FailuresBounded(s, t, t, times, j);
        QuartersIsDivision(Failures(s, times)[j], t);
      }
    } else {
      var a := s.windowStarted.value + THROTTLE_WINDOW;
      FiveAtOnce(s, t, a);
      assert Failures(s, [a, a, a, a, a])[4] == a;
      assert !FivePerQuarter(s, t);
    }
  }

  /** A concrete run: one failure at minute 0, three at minute 14, five at minute 15 put
      eight failures into one minute. */
  lemma EightInOneMinute()
    ensures var a, b := 840 * SECOND, 900 * SECOND;
            Failures(Initial, [0, a, a, a, b, b, b, b, b]) == [0, a, a, a, b, b, b, b, b]
  {
    var a, b := 840 * SECOND, 900 * SECOND;
    var s1, s2, s3, s4 := State(Some(0), 1, None), State(Some(0), 2, None), State(Some(0), 3, None), State(Some(0), 4, None);
    var five := [b, b, b, b, b];
    FiveAtOnce(s4, a, b);
    FailuresStep(s3, a, five);
    FailuresStep(s2, a, [a] + five);
    FailuresStep(s1, a, [a] + ([a] + five));
    FailuresStep(Initial, 0, [a] + ([a] + ([a] + five)));
    assert [0] + ([a] + ([a] + ([a] + five))) == [0, a, a, a, b, b, b, b, b];
  }

  lemma FailuresStep(s: State, a: nat, rest: seq<nat>)
    requires !IsBlocked(s, a)
    ensures Failures(s, [a] + rest) == [a] + Failures(Failed(s, a), rest)
  {
    assert ([a] + rest)[1..] == rest;
  }
}
