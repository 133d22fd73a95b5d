/** When a connection controller retries: the delay, which the three languages compute
    differently, and the policy that decides after each outcome. Times are milliseconds. */
module RetryPolicy {
  import opened Basics

  const INITIAL: nat := 250
  const FACTOR: nat := 2
  const MAXIMUM: nat := 30_000

  // ----- The delay ------------------------------------------------------------------

  function Power(exponent: nat): (r: nat)
    ensures r >= 1
  {
    if exponent == 0 then 1 else FACTOR * Power(exponent - 1)
  }

  function AtMost(limit: nat, x: nat): nat {
    if x < limit then x else limit
  }

  // The delay after the n-th failure in a row, counted from one.
  function Backoff(n: nat): nat {
    AtMost(MAXIMUM, INITIAL * Power(if n == 0 then 0 else n - 1))
  }

  lemma {:induction false} PowerGrows(a: nat, b: nat)
    requires a <= b
    ensures Power(a) <= Power(b)
  {
    if a < b {
      PowerGrows(a, b - 1);
    }
  }

  // From the eighth failure on the delay stays at its maximum.
  lemma BackoffSettles(n: nat)
    requires n >= 8
    ensures Backoff(n) == MAXIMUM
  {
    assert Power(4) == 16;
    assert Power(7) == 128;
    PowerGrows(7, n - 1);
  }

  lemma NextBackoff(n: nat)
    requires n >= 1
    ensures Backoff(n + 1) == AtMost(MAXIMUM, Backoff(n) * FACTOR)
    ensures Backoff(n) == MAXIMUM ==> Backoff(n + 1) == MAXIMUM
  {}

  lemma {:induction false} BackoffStaysAtMaximum(n: nat, m: nat)
    requires 1 <= n <= m && Backoff(n) == MAXIMUM
    ensures Backoff(m) == MAXIMUM
    decreases m
  {
    if n < m {
      BackoffStaysAtMaximum(n, m - 1);
      NextBackoff(m - 1);
    }
  }

  /** The delays in milliseconds: a quarter of a second, doubled up to half a minute. */
  lemma BackoffTable(n: nat)
    ensures n <= 1 ==> Backoff(n) == 250
    ensures n == 2 ==> Backoff(n) == 500
    ensures n == 3 ==> Backoff(n) == 1_000
    ensures n == 4 ==> Backoff(n) == 2_000
    ensures n == 5 ==> Backoff(n) == 4_000
    ensures n == 6 ==> Backoff(n) == 8_000
    ensures n == 7 ==> Backoff(n) == 16_000
    ensures n >= 8 ==> Backoff(n) == 30_000
  {
    assert Power(3) == 8;
    assert Power(6) == 64;
    if n >= 8 {
      BackoffSettles(n);
    }
  }

  // Rust: a bounded doubling loop over a zero-based index.
  method RustDelay(retryIndex: nat) returns (delay: nat)
    ensures delay == Backoff(retryIndex + 1)
  {
    delay := INITIAL;
    assert Backoff(1) == INITIAL;
    hide Backoff;
    var i := 0;
    while i < retryIndex
      invariant 0 <= i <= retryIndex && delay == Backoff(i + 1)
    {
      NextBackoff(i + 1);
      delay := AtMost(MAXIMUM, delay * FACTOR);
      i := i + 1;
      if delay == MAXIMUM {
        BackoffStaysAtMaximum(i + 1, retryIndex + 1);
        break;
      }
    }
  }

  // Go: a doubling loop over the failure ordinal that stops before it could pass the maximum.
  method GoDelay(failureOrdinal: nat) returns (delay: nat)
    ensures delay == Backoff(failureOrdinal)
  {
    delay := INITIAL;
    assert Backoff(1) == INITIAL && Backoff(0) == INITIAL;
    hide Backoff;
    var ordinal := 1;
    while ordinal < failureOrdinal && delay < MAXIMUM
      invariant 1 <= ordinal && (failureOrdinal >= 1 ==> ordinal <= failureOrdinal)
      invariant delay == Backoff(ordinal) <= MAXIMUM
      invariant failureOrdinal == 0 ==> ordinal == 1
    {
      NextBackoff(ordinal);
      if delay > MAXIMUM / FACTOR {
        BackoffStaysAtMaximum(ordinal + 1, failureOrdinal);
        return MAXIMUM;
      }
      delay := delay * FACTOR;
      ordinal := ordinal + 1;
    }
    if delay > MAXIMUM {
      return MAXIMUM;
    }
    if ordinal < failureOrdinal {
      BackoffStaysAtMaximum(ordinal, failureOrdinal);
    }
  }

  // TypeScript: a closed form with the exponent clamped to 30.
  function TsDelay(failures: nat): (r: nat)
    ensures r == Backoff(failures)
  {
    var exponent := AtMost(30, if failures == 0 then 0 else failures - 1);
    assert failures > 31 ==> AtMost(MAXIMUM, INITIAL * Power(30)) == MAXIMUM == Backoff(failures) by {
      BackoffSettles(31);
      if failures > 31 {
        BackoffSettles(failures);
      }
    }
    AtMost(MAXIMUM, INITIAL * Power(exponent))
  }

  // ----- The policy -----------------------------------------------------------------

  datatype Disposition = Terminal | Retryable | RetryAfter(notBefore: nat)

  /** How an attempt ended: it failed before a session existed, or its session was
      established and then terminated. */
  datatype Outcome = Failed(disposition: Disposition) | Ended(disposition: Disposition)

  datatype Decision = Stop | Retry(delay: nat, notBefore: nat)

  // How many attempts have failed since the last session, the latest included.
  function Streak(history: seq<Outcome>): nat {
    if history == [] || history[|history| - 1].Ended? then 0 else 1 + Streak(history[..|history| - 1])
  }

  predicate HadSession(history: seq<Outcome>) {
    exists x <- history :: x.Ended?
  }

  function Deadline(d: Disposition): nat {
    if d.RetryAfter? then d.notBefore else 0
  }

  // A terminated session counts as one failure of the streak that follows it.
  function Ordinal(history: seq<Outcome>): nat {
    Streak(history) + (if HadSession(history) then 1 else 0)
  }

  function Decide(history: seq<Outcome>, maximum: Option<nat>): Decision
    requires history != []
  {
    var d := history[|history| - 1].disposition;
    if d.Terminal? || (maximum.Some? && Streak(history) >= maximum.value) then Stop
    else Retry(Backoff(Ordinal(history)), Deadline(d))
  }

  lemma NextStreak(outcomes: seq<Outcome>, i: nat)
    requires i < |outcomes|
    ensures outcomes[..i + 1] == outcomes[..i] + [outcomes[i]]
    ensures Streak(outcomes[..i + 1]) == if outcomes[i].Ended? then 0 else 1 + Streak(outcomes[..i])
    ensures HadSession(outcomes[..i + 1]) <==> outcomes[i].Ended? || HadSession(outcomes[..i])
  {
    var before, after := outcomes[..i], outcomes[..i + 1];
    assert after[..|after| - 1] == before;
    if outcomes[i].Ended? {
      assert outcomes[i] in after;
    }
    if HadSession(before) {
      var x :| x in before && x.Ended?;
      assert x in after;
    }
  }

  // The next decision from the counters before it.
  lemma DecideNext(outcomes: seq<Outcome>, i: nat, maximum: Option<nat>)
    requires i < |outcomes| && (maximum.Some? ==> maximum.value >= 1)
    ensures Decide(outcomes[..i + 1], maximum) ==
            var d := outcomes[i].disposition;
            if d.Terminal? || (outcomes[i].Failed? && maximum.Some? && Streak(outcomes[..i]) + 1 >= maximum.value)
            then Stop
            else Retry(Backoff(if outcomes[i].Ended? then 1 else Ordinal(outcomes[..i]) + 1), Deadline(d))
  {
    hide Backoff;
    NextStreak(outcomes, i);
  }

  lemma NextOrdinal(outcomes: seq<Outcome>, i: nat)
    requires i < |outcomes|
    ensures Streak(outcomes[..i + 1]) == if outcomes[i].Ended? then 0 else 1 + Streak(outcomes[..i])
    ensures Ordinal(outcomes[..i + 1]) == if outcomes[i].Ended? then 1 else 1 + Ordinal(outcomes[..i])
  {
    NextStreak(outcomes, i);
  }

  // An unbroken run of failures is part of the streak that it ends.
  lemma {:induction false} StreakCovers(outcomes: seq<Outcome>, first: nat, last: nat)
    requires first <= last <= |outcomes| && forall i :: first <= i < last ==> outcomes[i].Failed?
    ensures Streak(outcomes[..last]) >= last - first
    decreases last
  {
    if first < last {
      StreakCovers(outcomes, first, last - 1);
      NextStreak(outcomes, last - 1);
    }
  }

  // The streak consists of failures.
  lemma {:induction false} StreakFailed(outcomes: seq<Outcome>, last: nat)
    requires last <= |outcomes|
    ensures Streak(outcomes[..last]) <= last
    ensures forall i :: last - Streak(outcomes[..last]) <= i < last ==> outcomes[i].Failed?
    decreases last
  {
    if last > 0 {
      StreakFailed(outcomes, last - 1);
      NextStreak(outcomes, last - 1);
    }
  }
}
