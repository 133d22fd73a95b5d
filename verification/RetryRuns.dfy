/** The retry schedulers of the three languages, from the first attempt to the last. Each
    keeps counters of its own and waits in its own way; all are proved to start the same
    attempts at the same times, none too early and none too many. */
module RetryRuns {
  import opened Basics
  import opened RetryPolicy
  import opened RetryWaits

  /** One attempt: how and when it ended, and what woke the wait that followed. */
  datatype Episode = Episode(outcome: Outcome, endedAt: nat, wakes: seq<Wake>)

  ghost function Outcomes(episodes: seq<Episode>): (r: seq<Outcome>)
    ensures |r| == |episodes| && forall i :: 0 <= i < |r| ==> r[i] == episodes[i].outcome
  {
    if episodes == [] then []
    else Outcomes(episodes[..|episodes| - 1]) + [episodes[|episodes| - 1].outcome]
  }

  // ----- The reference schedule -----------------------------------------------------

  /** What the policy decides after episode `i`. */
  ghost function DecisionAfter(episodes: seq<Episode>, maximum: Option<nat>, i: nat): Decision
    requires i < |episodes|
  {
    Decide(Outcomes(episodes)[..i + 1], maximum)
  }

  /** The next attempt starts at the first waking that is ready. */
  ghost predicate StartsAt(e: Episode, d: Decision, start: nat) {
    d.Retry? && exists k: nat :: k < |e.wakes| && FirstReady(e.endedAt, d, e.wakes, Some(k)) && start == e.wakes[k].at
  }

  /** No attempt follows, or its wait is not over yet. */
  ghost predicate Halts(e: Episode, d: Decision) {
    d.Stop? || FirstReady(e.endedAt, d, e.wakes, None)
  }

  ghost predicate Follows(episodes: seq<Episode>, maximum: Option<nat>, starts: seq<nat>) {
    && |starts| <= |episodes|
    && forall i :: 0 <= i < |starts| ==> StartsAt(episodes[i], DecisionAfter(episodes, maximum, i), starts[i])
  }

  /** `starts[i]` is when the attempt after episode `i` starts; the list ends where the
      policy stops, where a wait is not over, or with the episodes. */
  ghost predicate Schedule(episodes: seq<Episode>, maximum: Option<nat>, starts: seq<nat>) {
    && Follows(episodes, maximum, starts)
    && (|starts| < |episodes| ==> Halts(episodes[|starts|], DecisionAfter(episodes, maximum, |starts|)))
  }

  // ----- What a schedule promises ---------------------------------------------------

  /** A waking at which an attempt may start: the server's deadline has passed, if it set one,
      and the backoff of the `n`-th failure in a row has, unless a manual retry came first. */
  ghost predicate MayStart(e: Episode, n: nat, k: nat)
    requires k < |e.wakes|
  {
    && (e.outcome.disposition.RetryAfter? ==> e.wakes[k].at >= e.outcome.disposition.notBefore)
    && ((forall j :: 0 <= j <= k ==> !e.wakes[j].manual) ==> e.wakes[k].at >= e.endedAt + Backoff(n))
  }

  /** Episode `i` is the `n`-th failure in a row, counted from the first attempt or from the
      last session, whose end is the first failure of its row. */
  ghost predicate InARow(episodes: seq<Episode>, i: nat, n: nat)
    requires i < |episodes|
  {
    && 1 <= n <= i + 1
    && (forall j :: i + 1 - n < j <= i ==> episodes[j].outcome.Failed?)
    && (n == i + 1 || episodes[i + 1 - n].outcome.Ended?)
  }

  /** The controller gives up after episode `i`: a terminal failure, or as many failed attempts
      in a row as the limit allows. */
  ghost predicate GivesUp(episodes: seq<Episode>, maximum: Option<nat>, i: nat)
    requires i < |episodes|
  {
    || episodes[i].outcome.disposition.Terminal?
    || (&& maximum.Some? && maximum.value <= i + 1
        && forall j :: i + 1 - maximum.value <= j <= i ==> episodes[j].outcome.Failed?)
  }

  /** The next attempt starts at the first waking at which it may. */
  ghost predicate StartsOnTime(e: Episode, n: nat, start: nat) {
    exists k: nat ::
      k < |e.wakes| && start == e.wakes[k].at && MayStart(e, n, k) && forall j: nat | j < k :: !MayStart(e, n, j)
  }

  ghost predicate StillWaits(e: Episode, n: nat) {
    forall k: nat | k < |e.wakes| :: !MayStart(e, n, k)
  }

  ghost predicate Starts(episodes: seq<Episode>, i: nat, start: nat)
    requires i < |episodes|
  {
    exists n: nat :: InARow(episodes, i, n) && StartsOnTime(episodes[i], n, start)
  }

  ghost predicate Waits(episodes: seq<Episode>, i: nat)
    requires i < |episodes|
  {
    exists n: nat :: InARow(episodes, i, n) && StillWaits(episodes[i], n)
  }

  /** When attempts start, said outright: each one on time, none after giving up, and the
      list ends only where the controller gives up or still waits, or with the episodes. */
  ghost predicate Timetable(episodes: seq<Episode>, maximum: Option<nat>, starts: seq<nat>) {
    && |starts| <= |episodes|
    && (forall i :: 0 <= i < |starts| ==>
          && !GivesUp(episodes, maximum, i)
          && Starts(episodes, i, starts[i]))
    && (|starts| < |episodes| ==> GivesUp(episodes, maximum, |starts|) || Waits(episodes, |starts|))
  }

  /** `start` is late enough for the failures so far. */
  ghost predicate BackedOff(episodes: seq<Episode>, i: nat, start: nat)
    requires i < |episodes|
  {
    exists n: nat :: InARow(episodes, i, n) && start >= episodes[i].endedAt + Backoff(n)
  }

  /** No attempt follows a terminal failure, none starts before the server's deadline, and
      without a manual retry none starts before the backoff of the failures so far. */
  ghost predicate NeverEarly(episodes: seq<Episode>, starts: seq<nat>)
    requires |starts| <= |episodes|
  {
    forall i :: 0 <= i < |starts| ==>
      && !episodes[i].outcome.disposition.Terminal?
      && (episodes[i].outcome.disposition.RetryAfter? ==> starts[i] >= episodes[i].outcome.disposition.notBefore)
      && ((forall w <- episodes[i].wakes :: !w.manual) ==> BackedOff(episodes, i, starts[i]))
  }

  /** Attempts `first` up to, not including, `last` failed before a session existed. */
  ghost predicate FailedThroughout(episodes: seq<Episode>, first: nat, last: nat)
    requires last <= |episodes|
  {
    forall i :: first <= i < last ==> episodes[i].outcome.Failed?
  }

  /** Attempts between two sessions are no more than the limit: attempt `first` to attempt
      `last`, all but the last of them failed. Attempt 0 is the first of all, and attempt
      `i + 1` starts at `starts[i]`. */
  ghost predicate WithinLimit(episodes: seq<Episode>, starts: seq<nat>, maximum: nat)
    requires |starts| <= |episodes|
  {
    forall first: nat, last: nat | first <= last <= |starts| && FailedThroughout(episodes, first, last) ::
      last - first + 1 <= maximum
  }

  lemma RowBegins(episodes: seq<Episode>, i: nat)
    requires i < |episodes| && (i == 0 || episodes[i].outcome.Ended?)
    ensures InARow(episodes, i, 1)
  {}

  lemma RowGrows(episodes: seq<Episode>, i: nat, n: nat)
    requires i + 1 < |episodes| && episodes[i + 1].outcome.Failed? && InARow(episodes, i, n)
    ensures InARow(episodes, i + 1, n + 1)
  {}

  lemma NoOrdinal(outcomes: seq<Outcome>)
    ensures Ordinal(outcomes[..0]) == 0
  {}

  lemma {:induction false} OrdinalInARow(episodes: seq<Episode>, i: nat)
    requires i < |episodes|
    ensures InARow(episodes, i, Ordinal(Outcomes(episodes)[..i + 1]))
    decreases i
  {
    hide InARow, Ordinal, Streak, Outcomes;
    NextOrdinal(Outcomes(episodes), i);
    NoOrdinal(Outcomes(episodes));
    if i > 0 && episodes[i].outcome.Failed? {
      OrdinalInARow(episodes, i - 1);
      RowGrows(episodes, i - 1, Ordinal(Outcomes(episodes)[..i]));
    } else {
      RowBegins(episodes, i);
    }
  }

  // The limit counts the streak.
  lemma StreakReaches(episodes: seq<Episode>, limit: nat, i: nat)
    requires i < |episodes| && limit >= 1
    ensures Streak(Outcomes(episodes)[..i + 1]) >= limit <==>
            limit <= i + 1 && forall j :: i + 1 - limit <= j <= i ==> episodes[j].outcome.Failed?
  {
    hide Streak, Outcomes;
    var outcomes := Outcomes(episodes);
    StreakFailed(outcomes, i + 1);
    if limit <= i + 1 && forall j :: i + 1 - limit <= j <= i ==> episodes[j].outcome.Failed? {
      forall j | i + 1 - limit <= j < i + 1 ensures outcomes[j].Failed? {
        assert outcomes[j] == episodes[j].outcome;
      }
      StreakCovers(outcomes, i + 1 - limit, i + 1);
    }
  }

  lemma StopsExactly(episodes: seq<Episode>, maximum: Option<nat>, i: nat)
    requires i < |episodes| && (maximum.Some? ==> maximum.value >= 1)
    ensures DecisionAfter(episodes, maximum, i).Stop? <==> GivesUp(episodes, maximum, i)
    ensures DecisionAfter(episodes, maximum, i).Stop? || DecisionAfter(episodes, maximum, i)
            == Retry(Backoff(Ordinal(Outcomes(episodes)[..i + 1])), Deadline(episodes[i].outcome.disposition))
  {
    hide Backoff, Streak, Ordinal, Deadline, Outcomes;
    if maximum.Some? {
      StreakReaches(episodes, maximum.value, i);
    }
  }

  lemma ReadyExactly(e: Episode, n: nat, k: nat)
    requires k < |e.wakes|
    ensures Ready(e.endedAt, Retry(Backoff(n), Deadline(e.outcome.disposition)), e.wakes, k) <==> MayStart(e, n, k)
  {
    hide Backoff;
  }

  lemma StartsExactly(e: Episode, n: nat)
    ensures var d := Retry(Backoff(n), Deadline(e.outcome.disposition));
            && (forall start :: StartsAt(e, d, start) ==> StartsOnTime(e, n, start))
            && (FirstReady(e.endedAt, d, e.wakes, None) ==> StillWaits(e, n))
  {
    hide Backoff, Ready, MayStart, Deadline;
    forall k: nat | k < |e.wakes|
      ensures Ready(e.endedAt, Retry(Backoff(n), Deadline(e.outcome.disposition)), e.wakes, k) <==> MayStart(e, n, k)
    {
      ReadyExactly(e, n, k);
    }
  }

  /** What the counters and the policy amount to. */
  lemma SchedulesAreTimetables(episodes: seq<Episode>, maximum: Option<nat>, starts: seq<nat>)
    requires (maximum.Some? ==> maximum.value >= 1) && Schedule(episodes, maximum, starts)
    ensures Timetable(episodes, maximum, starts)
  {
    hide StartsAt, Backoff, Ordinal, Streak, GivesUp, InARow, StartsOnTime, StillWaits, DecisionAfter, FirstReady;
    forall i | 0 <= i < |starts|
      ensures !GivesUp(episodes, maximum, i)
      ensures Starts(episodes, i, starts[i])
    {
      RetriesIn(episodes[i], DecisionAfter(episodes, maximum, i), starts[i]);
      StopsExactly(episodes, maximum, i);
      OrdinalInARow(episodes, i);
      var n := Ordinal(Outcomes(episodes)[..i + 1]);
      StartsExactly(episodes[i], n);
      assert InARow(episodes, i, n) && StartsOnTime(episodes[i], n, starts[i]);
    }
    if |starts| < |episodes| {
      var i := |starts|;
      StopsExactly(episodes, maximum, i);
      if !DecisionAfter(episodes, maximum, i).Stop? {
        OrdinalInARow(episodes, i);
        var n := Ordinal(Outcomes(episodes)[..i + 1]);
        StartsExactly(episodes[i], n);
        assert Waits(episodes, i);
      }
    }
  }

  lemma SchedulesAreNeverEarly(episodes: seq<Episode>, maximum: Option<nat>, starts: seq<nat>)
    requires Timetable(episodes, maximum, starts)
    ensures NeverEarly(episodes, starts)
  {
    hide Backoff, InARow;
    forall i | 0 <= i < |starts|
      ensures !episodes[i].outcome.disposition.Terminal?
      ensures episodes[i].outcome.disposition.RetryAfter? ==> starts[i] >= episodes[i].outcome.disposition.notBefore
      ensures (forall w <- episodes[i].wakes :: !w.manual) ==> BackedOff(episodes, i, starts[i])
    {
      assert !GivesUp(episodes, maximum, i) && Starts(episodes, i, starts[i]);
      var n: nat :| InARow(episodes, i, n) && StartsOnTime(episodes[i], n, starts[i]);
    }
  }

  lemma RetriesIn(e: Episode, d: Decision, start: nat)
    requires StartsAt(e, d, start)
    ensures d.Retry?
  {
  }

  lemma SchedulesKeepTheLimit(episodes: seq<Episode>, maximum: nat, starts: seq<nat>)
    requires maximum >= 1 && Follows(episodes, Some(maximum), starts)
    ensures WithinLimit(episodes, starts, maximum)
  {
    hide StartsAt, Backoff, Ordinal, Streak;
    forall first: nat, last: nat | first <= last <= |starts| && FailedThroughout(episodes, first, last)
      ensures last - first + 1 <= maximum
    {
      StreakCovers(Outcomes(episodes), first, last);
      if last > 0 {
        RetriesIn(episodes[last - 1], DecisionAfter(episodes, Some(maximum), last - 1), starts[last - 1]);
      }
    }
  }

  lemma SameStart(e: Episode, d: Decision, start: nat, other: nat)
    requires StartsAt(e, d, start) && StartsAt(e, d, other)
    ensures start == other
  {
    var k: nat :| k < |e.wakes| && FirstReady(e.endedAt, d, e.wakes, Some(k)) && start == e.wakes[k].at;
    var l: nat :| l < |e.wakes| && FirstReady(e.endedAt, d, e.wakes, Some(l)) && other == e.wakes[l].at;
    WaitsAgree(e.endedAt, d, e.wakes, Some(k), Some(l));
  }

  lemma NotLonger(episodes: seq<Episode>, maximum: Option<nat>, r: seq<nat>, s: seq<nat>)
    requires Schedule(episodes, maximum, r) && Schedule(episodes, maximum, s)
    ensures |r| <= |s|
  {
    if |s| < |r| {
      var e, d := episodes[|s|], DecisionAfter(episodes, maximum, |s|);
      var k: nat :| k < |e.wakes| && FirstReady(e.endedAt, d, e.wakes, Some(k)) && r[|s|] == e.wakes[k].at;
      WaitsAgree(e.endedAt, d, e.wakes, Some(k), None);
    }
  }

  /** The schedule is unique, so controllers that follow it start the same attempts at the
      same times. */
  lemma SchedulersAgree(episodes: seq<Episode>, maximum: Option<nat>, r: seq<nat>, s: seq<nat>)
    requires Schedule(episodes, maximum, r) && Schedule(episodes, maximum, s)
    ensures r == s
  {
    NotLonger(episodes, maximum, r, s);
    NotLonger(episodes, maximum, s, r);
    hide StartsAt, Halts, DecisionAfter;
    forall i | 0 <= i < |r|
      ensures r[i] == s[i]
    {
      SameStart(episodes[i], DecisionAfter(episodes, maximum, i), r[i], s[i]);
    }
  }

  // ----- One more episode -----------------------------------------------------------

  lemma NoStarts(episodes: seq<Episode>, maximum: Option<nat>)
    ensures Follows(episodes, maximum, [])
    ensures Streak(Outcomes(episodes)[..0]) == 0 && Ordinal(Outcomes(episodes)[..0]) == 0
  {
  }

  lemma NextDecision(episodes: seq<Episode>, maximum: Option<nat>, i: nat)
    requires i < |episodes| && (maximum.Some? ==> maximum.value >= 1)
    ensures var before := Outcomes(episodes)[..i];
            var outcome := episodes[i].outcome;
            && Streak(Outcomes(episodes)[..i + 1]) == (if outcome.Ended? then 0 else 1 + Streak(before))
            && Ordinal(Outcomes(episodes)[..i + 1]) == (if outcome.Ended? then 1 else 1 + Ordinal(before))
            && DecisionAfter(episodes, maximum, i) ==
               (if outcome.disposition.Terminal?
                   || (outcome.Failed? && maximum.Some? && Streak(before) + 1 >= maximum.value)
                then Stop
                else Retry(Backoff(if outcome.Ended? then 1 else Ordinal(before) + 1), Deadline(outcome.disposition)))
  {
    hide Backoff, Streak, Ordinal;
    NextOrdinal(Outcomes(episodes), i);
    DecideNext(Outcomes(episodes), i, maximum);
  }

  lemma Extends(episodes: seq<Episode>, maximum: Option<nat>, starts: seq<nat>, woken: Option<nat>)
    requires Follows(episodes, maximum, starts) && |starts| < |episodes|
    requires DecisionAfter(episodes, maximum, |starts|).Retry?
    requires FirstReady(episodes[|starts|].endedAt, DecisionAfter(episodes, maximum, |starts|),
                        episodes[|starts|].wakes, woken)
    ensures woken.None? ==> Schedule(episodes, maximum, starts)
    ensures woken.Some? ==> woken.value < |episodes[|starts|].wakes|
    ensures woken.Some? ==> Follows(episodes, maximum, starts + [episodes[|starts|].wakes[woken.value].at])
  {
    hide DecisionAfter;
  }

  lemma Stops(episodes: seq<Episode>, maximum: Option<nat>, starts: seq<nat>)
    requires Follows(episodes, maximum, starts) && |starts| < |episodes|
    requires DecisionAfter(episodes, maximum, |starts|).Stop?
    ensures Schedule(episodes, maximum, starts)
  {
    hide DecisionAfter, Follows;
  }

  lemma Promises(episodes: seq<Episode>, maximum: Option<nat>, starts: seq<nat>)
    requires (maximum.Some? ==> maximum.value >= 1) && Schedule(episodes, maximum, starts)
    ensures Timetable(episodes, maximum, starts) && NeverEarly(episodes, starts)
    ensures maximum.Some? ==> WithinLimit(episodes, starts, maximum.value)
  {
    hide NeverEarly, WithinLimit, Halts, DecisionAfter, StartsAt, GivesUp, Starts, Waits;
    SchedulesAreTimetables(episodes, maximum, starts);
    SchedulesAreNeverEarly(episodes, maximum, starts);
    if maximum.Some? {
      SchedulesKeepTheLimit(episodes, maximum.value, starts);
    }
  }

  // ----- The three schedulers -------------------------------------------------------

  method RunRust(episodes: seq<Episode>, maximum: Option<nat>) returns (starts: seq<nat>)
    requires maximum.Some? ==> maximum.value >= 1
    ensures Timetable(episodes, maximum, starts) && Schedule(episodes, maximum, starts) && NeverEarly(episodes, starts)
    ensures maximum.Some? ==> WithinLimit(episodes, starts, maximum.value)
  {
    starts := RustSchedule(episodes, maximum);
    Promises(episodes, maximum, starts);
  }

  method RustSchedule(episodes: seq<Episode>, maximum: Option<nat>) returns (starts: seq<nat>)
    requires maximum.Some? ==> maximum.value >= 1
    ensures Schedule(episodes, maximum, starts)
  {
    hide Backoff, Streak, Ordinal, DecisionAfter, StartsAt, Halts, Outcomes, FirstReady;
    NoStarts(episodes, maximum);
    starts := [];
    var attempt, retryIndex := 0, 0;
    var i := 0;
    while i < |episodes|
      invariant 0 <= i <= |episodes| && |starts| == i && Follows(episodes, maximum, starts)
      invariant attempt == Streak(Outcomes(episodes)[..i])
      invariant retryIndex == Ordinal(Outcomes(episodes)[..i])
    {
      NextDecision(episodes, maximum, i);
      attempt := attempt + 1;
      var outcome := episodes[i].outcome;
      var attemptsInCycle := attempt;
      if outcome.Ended? {
        retryIndex := 0;
        attemptsInCycle := 0;
      }
      if outcome.disposition.Terminal? || (maximum.Some? && attemptsInCycle >= maximum.value) {
        Stops(episodes, maximum, starts);
        return;
      }
      var delay := RustDelay(retryIndex);
      var retry := Retry(delay, Deadline(outcome.disposition));
      var woken := RustWait(episodes[i].endedAt, retry, episodes[i].wakes);
      Extends(episodes, maximum, starts, woken);
      if woken.None? {
        return;
      }
      starts := starts + [episodes[i].wakes[woken.value].at];
      if outcome.Ended? {
        attempt := 0;
        retryIndex := 1;
      } else {
        retryIndex := retryIndex + 1;
      }
      i := i + 1;
    }
  }

  // Go counts attempts from one and keeps zero for "no limit".
  method RunGo(episodes: seq<Episode>, maximum: Option<nat>) returns (starts: seq<nat>)
    requires maximum.Some? ==> maximum.value >= 1
    ensures Timetable(episodes, maximum, starts) && Schedule(episodes, maximum, starts) && NeverEarly(episodes, starts)
    ensures maximum.Some? ==> WithinLimit(episodes, starts, maximum.value)
  {
    starts := GoSchedule(episodes, maximum);
    Promises(episodes, maximum, starts);
  }

  method GoSchedule(episodes: seq<Episode>, maximum: Option<nat>) returns (starts: seq<nat>)
    requires maximum.Some? ==> maximum.value >= 1
    ensures Schedule(episodes, maximum, starts)
  {
    hide Backoff, Streak, Ordinal, DecisionAfter, StartsAt, Halts, Outcomes, FirstReady;
    NoStarts(episodes, maximum);
    starts := [];
    var maximumAttempts := if maximum.Some? then maximum.value else 0;
    var consecutiveFailures, attemptsSinceConnected := 0, 1;
    var i := 0;
    while i < |episodes|
      invariant 0 <= i <= |episodes| && |starts| == i && Follows(episodes, maximum, starts)
      invariant attemptsSinceConnected == Streak(Outcomes(episodes)[..i]) + 1
      invariant consecutiveFailures == Ordinal(Outcomes(episodes)[..i])
    {
      NextDecision(episodes, maximum, i);
      var outcome := episodes[i].outcome;
      if outcome.Ended? {
        consecutiveFailures := 0;
        attemptsSinceConnected := 0;
        consecutiveFailures := 1;
      } else {
        consecutiveFailures := consecutiveFailures + 1;
      }
      if outcome.disposition.Terminal? || (maximumAttempts != 0 && attemptsSinceConnected >= maximumAttempts) {
        Stops(episodes, maximum, starts);
        return;
      }
      var delay := GoDelay(consecutiveFailures);
      var woken := GoWait(episodes[i].endedAt, Retry(delay, Deadline(outcome.disposition)), episodes[i].wakes);
      Extends(episodes, maximum, starts, woken);
      if woken.None? {
        return;
      }
      starts := starts + [episodes[i].wakes[woken.value].at];
      attemptsSinceConnected := attemptsSinceConnected + 1;
      i := i + 1;
    }
  }

  // TypeScript checks the limit before the wait and again before the attempt; the loop
  // invariant on `attempt` says that the second check never finds anything.
  method RunTs(episodes: seq<Episode>, maximum: Option<nat>) returns (starts: seq<nat>)
    requires maximum.Some? ==> maximum.value >= 1
    ensures Timetable(episodes, maximum, starts) && Schedule(episodes, maximum, starts) && NeverEarly(episodes, starts)
    ensures maximum.Some? ==> WithinLimit(episodes, starts, maximum.value)
  {
    starts := TsSchedule(episodes, maximum);
    Promises(episodes, maximum, starts);
  }

  method TsSchedule(episodes: seq<Episode>, maximum: Option<nat>) returns (starts: seq<nat>)
    requires maximum.Some? ==> maximum.value >= 1
    ensures Schedule(episodes, maximum, starts)
  {
    hide Backoff, Streak, Ordinal, DecisionAfter, StartsAt, Halts, Outcomes, FirstReady;
    NoStarts(episodes, maximum);
    starts := [];
    var attempt, consecutiveFailures, resetAttemptOnRetry := 0, 0, false;
    var i := 0;
    while i < |episodes|
      invariant 0 <= i <= |episodes| && |starts| == i && Follows(episodes, maximum, starts)
      invariant attempt == Streak(Outcomes(episodes)[..i]) && !resetAttemptOnRetry
      invariant maximum.Some? ==> attempt < maximum.value
      invariant consecutiveFailures == Ordinal(Outcomes(episodes)[..i])
    {
      NextDecision(episodes, maximum, i);
      attempt := attempt + 1;
      var outcome := episodes[i].outcome;
      if outcome.disposition.Terminal? {
        Stops(episodes, maximum, starts);
        return;
      }
      if outcome.Ended? {
        consecutiveFailures := 1;
        resetAttemptOnRetry := true;
      } else {
        consecutiveFailures := consecutiveFailures + 1;
      }
      if maximum.Some? && !resetAttemptOnRetry && attempt >= maximum.value {
        Stops(episodes, maximum, starts);
        return;
      }
      var retry := Retry(TsDelay(consecutiveFailures), Deadline(outcome.disposition));
      var woken := TsWait(episodes[i].endedAt, retry, episodes[i].wakes);
      Extends(episodes, maximum, starts, woken);
      if woken.None? {
        return;
      }
      starts := starts + [episodes[i].wakes[woken.value].at];
      if resetAttemptOnRetry {
        attempt := 0;
        resetAttemptOnRetry := false;
      }
      i := i + 1;
    }
  }
}
