/** Waiting for the next attempt. A wait is woken by timers and by manual retries and
    reads the clock each time; the three schedulers are proved to leave it at the same
    waking, the first one that the deadlines allow. */
module RetryWaits {
  import opened Basics
  import opened RetryPolicy

  /** One waking: the clock reading, and whether a manual retry was accepted since the
      previous one. */
  datatype Wake = Wake(at: nat, manual: bool)

  ghost predicate ManualBy(wakes: seq<Wake>, i: nat)
    requires i < |wakes|
  {
    exists j :: 0 <= j <= i && wakes[j].manual
  }

  /** The deadline set by the server binds always, the backoff only until a manual retry. */
  ghost predicate Ready(failedAt: nat, retry: Decision, wakes: seq<Wake>, i: nat)
    requires retry.Retry? && i < |wakes|
  {
    wakes[i].at >= retry.notBefore && (ManualBy(wakes, i) || wakes[i].at >= failedAt + retry.delay)
  }

  ghost predicate FirstReady(failedAt: nat, retry: Decision, wakes: seq<Wake>, r: Option<nat>)
    requires retry.Retry?
  {
    && (r.Some? ==> r.value < |wakes| && Ready(failedAt, retry, wakes, r.value))
    && forall i :: 0 <= i < (if r.Some? then r.value else |wakes|) ==> !Ready(failedAt, retry, wakes, i)
  }

  lemma NextManual(wakes: seq<Wake>, i: nat)
    requires i < |wakes|
    ensures ManualBy(wakes, i) <==> wakes[i].manual || (i > 0 && ManualBy(wakes, i - 1))
  {}

  // TypeScript: one loop that recomputes its deadline at every waking.
  method TsWait(failedAt: nat, retry: Decision, wakes: seq<Wake>) returns (r: Option<nat>)
    requires retry.Retry?
    ensures FirstReady(failedAt, retry, wakes, r)
  {
    hide ManualBy;
    var backoffDeadline := failedAt + retry.delay;
    var manualRetryRequested := false;
    var i := 0;
    while i < |wakes|
      invariant 0 <= i <= |wakes|
      invariant manualRetryRequested <==> i > 0 && ManualBy(wakes, i - 1)
      invariant forall j :: 0 <= j < i ==> !Ready(failedAt, retry, wakes, j)
    {
      NextManual(wakes, i);
      manualRetryRequested := manualRetryRequested || wakes[i].manual;
      var deadline := if manualRetryRequested || retry.notBefore > backoffDeadline
                      then retry.notBefore else backoffDeadline;
      if wakes[i].at >= deadline {
        return Some(i);
      }
      i := i + 1;
    }
    return None;
  }

  // Rust: a wait for the later deadline raced against a manual retry, which leaves the hard one.
  method RustWait(failedAt: nat, retry: Decision, wakes: seq<Wake>) returns (r: Option<nat>)
    requires retry.Retry?
    ensures FirstReady(failedAt, retry, wakes, r)
  {
    hide ManualBy;
    var backoffAt := failedAt + retry.delay;
    var scheduled := if retry.notBefore > backoffAt then retry.notBefore else backoffAt;
    var i := 0;
    while i < |wakes| && !wakes[i].manual
      invariant 0 <= i <= |wakes|
      invariant forall j :: 0 <= j < i ==> !Ready(failedAt, retry, wakes, j) && !ManualBy(wakes, j)
    {
      NextManual(wakes, i);
      if wakes[i].at >= scheduled {
        return Some(i);
      }
      i := i + 1;
    }
    while i < |wakes|
      invariant 0 <= i <= |wakes|
      invariant forall j :: 0 <= j < i ==> !Ready(failedAt, retry, wakes, j)
      invariant i < |wakes| ==> wakes[i].manual || (i > 0 && ManualBy(wakes, i - 1))
    {
      NextManual(wakes, i);
      if wakes[i].at >= retry.notBefore {
        return Some(i);
      }
      i := i + 1;
    }
    return None;
  }

  // Go: a timer for the later deadline, replaced by one for the hard deadline after an early retry.
  method GoWait(failedAt: nat, retry: Decision, wakes: seq<Wake>) returns (r: Option<nat>)
    requires retry.Retry?
    ensures FirstReady(failedAt, retry, wakes, r)
  {
    hide ManualBy;
    var retryAt := failedAt + retry.delay;
    if retry.notBefore > retryAt {
      retryAt := retry.notBefore;
    }
    var fires := retryAt;
    var i := 0;
    while i < |wakes|
      invariant 0 <= i <= |wakes|
      invariant i > 0 && ManualBy(wakes, i - 1) ==> fires == retry.notBefore
      invariant !(i > 0 && ManualBy(wakes, i - 1)) ==> fires == retryAt
      invariant forall j :: 0 <= j < i ==> !Ready(failedAt, retry, wakes, j)
    {
      NextManual(wakes, i);
      if wakes[i].manual {
        if wakes[i].at >= retry.notBefore {
          return Some(i);
        }
        fires := wakes[i].at + (retry.notBefore - wakes[i].at);
      } else if wakes[i].at >= fires {
        return Some(i);
      }
      i := i + 1;
    }
    return None;
  }

  // Two waits that each leave at the first ready waking leave at the same one.
  lemma WaitsAgree(failedAt: nat, retry: Decision, wakes: seq<Wake>, r: Option<nat>, s: Option<nat>)
    requires retry.Retry? && FirstReady(failedAt, retry, wakes, r) && FirstReady(failedAt, retry, wakes, s)
    ensures r == s
  {
    hide Ready;
  }
}
