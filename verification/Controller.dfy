/** Who owns a session. One scheduler acquires, connects, publishes and retires sessions
    while `close` may run at any point; both change the shared status under a lock. Every
    session the connector returns is the current one, still in the scheduler's hands, on
    its way to being closed, or closed. */
module Controller {
  import opened Basics

  datatype Status = Idle | Connecting | Connected | Waiting | Failed | Closed

  type Session = nat

  type Revision = x: nat | x <= U64_MAX

  /** The fields the lock protects. */
  datatype Shared = Shared(status: Status, current: Option<Session>, attempt: nat,
                           nextRetryAt: Option<nat>, retryNotBefore: Option<nat>, revision: Revision)

  function Bump(revision: Revision): Revision {
    if revision >= U64_MAX then U64_MAX else revision + 1
  }

  function Updated(c: Shared, status: Status, current: Option<Session>, attempt: nat,
                   nextRetryAt: Option<nat>, retryNotBefore: Option<nat>): Shared
  {
    if c.status.Closed? then c
    else Shared(status, current, attempt, nextRetryAt, retryNotBefore, Bump(c.revision))
  }

  function Kept(c: Shared, clearCurrent: bool): Option<Session> {
    if clearCurrent then None else c.current
  }

  class ControllerState {
    var status: Status
    var current: Option<Session>
    var attempt: nat
    var nextRetryAt: Option<nat>
    var retryNotBefore: Option<nat>
    var revision: Revision

    ghost function View(): Shared
      reads this
    {
      Shared(status, current, attempt, nextRetryAt, retryNotBefore, revision)
    }

    constructor ()
      ensures View() == START.shared
    {
      status, current, attempt, nextRetryAt, retryNotBefore, revision := Idle, None, 0, None, None, 0;
    }

    // Every change goes through here: a closed controller is never changed again.
    method Update(status: Status, current: Option<Session>, attempt: nat,
                  nextRetryAt: Option<nat>, retryNotBefore: Option<nat>)
      returns (ok: bool)
      modifies this
      ensures ok <==> !old(this.status).Closed?
      ensures View() == Updated(old(View()), status, current, attempt, nextRetryAt, retryNotBefore)
    {
      if this.status.Closed? {
        return false;
      }
      this.status, this.current, this.attempt := status, current, attempt;
      this.nextRetryAt, this.retryNotBefore := nextRetryAt, retryNotBefore;
      revision := if revision >= U64_MAX then U64_MAX else revision + 1;
      return true;
    }

    method SetConnecting(attempt: nat) returns (ok: bool)
      modifies this
      ensures ok <==> !old(status).Closed?
      ensures View() == Updated(old(View()), Connecting, old(current), attempt, None, None)
    {
      ok := Update(Connecting, current, attempt, None, None);
    }

    method SetConnected(attempt: nat, session: Session) returns (ok: bool)
      modifies this
      ensures ok <==> !old(status).Closed?
      ensures View() == Updated(old(View()), Connected, Some(session), attempt, None, None)
    {
      ok := Update(Connected, Some(session), attempt, None, None);
    }

    method SetWaiting(attempt: nat, nextRetryAt: nat, retryNotBefore: Option<nat>, clearCurrent: bool)
      returns (waiting: Option<nat>)
      modifies this
      ensures View() == Updated(old(View()), Waiting, Kept(old(View()), clearCurrent), attempt,
                                Some(nextRetryAt), retryNotBefore)
      ensures waiting == if old(status).Closed? then None else Some(revision)
    {
      var ok := Update(Waiting, if clearCurrent then None else current, attempt, Some(nextRetryAt), retryNotBefore);
      return if ok then Some(revision) else None;
    }

    method SetFailed(attempt: nat, clearCurrent: bool) returns (ok: bool)
      modifies this
      ensures ok <==> !old(status).Closed?
      ensures View() == Updated(old(View()), Failed, Kept(old(View()), clearCurrent), attempt, None, None)
    {
      ok := Update(Failed, if clearCurrent then None else current, attempt, None, None);
    }

    // Closing hands the current session to the caller, who must close it.
    method FinishClosed() returns (taken: Option<Session>)
      modifies this
      ensures View() == Updated(old(View()), Closed, None, old(attempt), None, None)
      ensures taken == if old(status).Closed? then None else old(current)
    {
      taken := if status.Closed? then None else current;
      var ok := Update(Closed, None, attempt, None, None);
    }
  }

  // ----- The scheduler and its closers ----------------------------------------------

  datatype Phase =
    | NotStarted
    | LoopTop
    | Starting
    | Acquiring
    | Dialing
    | Dialed(result: Option<Session>)
    | Publishing(own: Session)
    | ClosingOwn(own: Session, stopAfter: bool)
    | Watching(own: Session)
    | Ended(own: Session)
    | Scheduling(clearCurrent: bool)
    | Sleeping
    | Stopping
    | Finished

  /** `taken` holds the sessions that closers have taken and not yet called close on. */
  datatype State = State(shared: Shared, cancelled: bool, phase: Phase,
                         taken: set<Session>, closed: set<Session>, issued: set<Session>)

  datatype Step =
    | Start
    | CheckCancelled
    | BeginAttempt(attempt: nat)
    | AcquireOk
    | AcquireFailed
    | AcquireCancelled
    | DialReturns(dialed: Option<Session>)
    | CheckDialed
    | CloseOwn
    | Publish(attempt: nat)
    | WatchCancelled
    | SessionEnds
    | CloseEnded
    | GiveUp(attempt: nat)
    | ScheduleRetry(attempt: nat, at: nat, notBefore: Option<nat>)
    | Wake
    | SleepCancelled
    | StopNow
    | Cancel
    | CloseTakes
    | CallClose(session: Session)

  const START := State(Shared(Idle, None, 0, None, None, 0), false, NotStarted, {}, {}, {})

  // The current session leaves the shared state and belongs to whoever closes.
  function Take(s: State, phase: Phase): State {
    s.(shared := Updated(s.shared, Closed, None, s.shared.attempt, None, None), phase := phase,
    taken := s.taken + (if s.shared.status.Closed? || s.shared.current.None? then {} else {s.shared.current.value}))
  }

  function Apply(s: State, step: Step): Option<State> {
    match step
    case Start =>
      if !s.phase.NotStarted? || s.shared.status.Closed? then None else Some(s.(phase := LoopTop))
    case CheckCancelled =>
      if !s.phase.LoopTop? then None else Some(s.(phase := if s.cancelled then Stopping else Starting))
    case BeginAttempt(attempt) =>
      if !s.phase.Starting? then None
      else if s.shared.status.Closed? then Some(s.(phase := Finished))
      else Some(s.(shared := Updated(s.shared, Connecting, s.shared.current, attempt, None, None), phase := Acquiring))
    case AcquireOk =>
      if !s.phase.Acquiring? then None else Some(s.(phase := Dialing))
    case AcquireFailed =>
      if !s.phase.Acquiring? then None else Some(s.(phase := Scheduling(false)))
    case AcquireCancelled =>
      if !s.phase.Acquiring? || !s.cancelled then None else Some(s.(phase := Stopping))
    case DialReturns(dialed) =>
      if !s.phase.Dialing? || (dialed.Some? && dialed.value in s.issued) then None
      else Some(s.(phase := Dialed(dialed), issued := s.issued + (if dialed.Some? then {dialed.value} else {})))
    case CheckDialed =>
      if !s.phase.Dialed? then None
      else if s.cancelled then
        Some(s.(phase := if s.phase.result.Some? then ClosingOwn(s.phase.result.value, true) else Stopping))
      else Some(s.(phase := if s.phase.result.Some? then Publishing(s.phase.result.value) else Scheduling(false)))
    case CloseOwn =>
      if !s.phase.ClosingOwn? then None
      else Some(s.(closed := s.closed + {s.phase.own}, phase := if s.phase.stopAfter then Stopping else Finished))
    case Publish(attempt) =>
      if !s.phase.Publishing? then None
      else if s.shared.status.Closed? then Some(s.(phase := ClosingOwn(s.phase.own, false)))
      else Some(s.(shared := Updated(s.shared, Connected, Some(s.phase.own), attempt, None, None),
                phase := Watching(s.phase.own)))
    case WatchCancelled =>
      if !s.phase.Watching? || !s.cancelled then None else Some(s.(phase := Stopping))
    case SessionEnds =>
      if !s.phase.Watching? then None else Some(s.(phase := Ended(s.phase.own)))
    case CloseEnded =>
      if !s.phase.Ended? then None else Some(s.(closed := s.closed + {s.phase.own}, phase := Scheduling(true)))
    case GiveUp(attempt) =>
      if !s.phase.Scheduling? then None
      else Some(s.(shared := Updated(s.shared, Failed, Kept(s.shared, s.phase.clearCurrent), attempt, None, None),
                phase := Finished))
    case ScheduleRetry(attempt, at, notBefore) =>
      if !s.phase.Scheduling? then None
      else if s.shared.status.Closed? then Some(s.(phase := Finished))
      else
        var kept := Kept(s.shared, s.phase.clearCurrent);
        Some(s.(shared := Updated(s.shared, Waiting, kept, attempt, Some(at), notBefore), phase := Sleeping))
    case Wake =>
      if !s.phase.Sleeping? then None else Some(s.(phase := LoopTop))
    case SleepCancelled =>
      if !s.phase.Sleeping? || !s.cancelled then None else Some(s.(phase := Finished))
    case StopNow =>
      if !s.phase.Stopping? then None else Some(Take(s, Finished))
    case Cancel => Some(s.(cancelled := true))
    case CloseTakes =>
      if !s.cancelled then None else Some(Take(s, s.phase))
    case CallClose(session) =>
      if session !in s.taken then None
      else Some(s.(taken := s.taken - {session}, closed := s.closed + {session}))
  }

  function Run(s: State, steps: seq<Step>): Option<State>
    decreases |steps|
  {
    if steps == [] then Some(s)
    else if Apply(s, steps[0]).None? then None
    else Run(Apply(s, steps[0]).value, steps[1..])
  }

  // ----- Ownership ------------------------------------------------------------------

  ghost predicate CurrentExactlyConnected(c: Shared) {
    c.current.Some? <==> c.status.Connected?
  }

  predicate Holds(phase: Phase, x: Session) {
    || phase == Dialed(Some(x))
    || phase == Publishing(x)
    || (phase.ClosingOwn? && phase.own == x)
  }

  ghost predicate Owned(s: State, x: Session) {
    s.shared.current == Some(x) || Holds(s.phase, x) || x in s.taken || x in s.closed
  }

  // What each phase knows about the shared session.
  ghost predicate PhaseOk(s: State) {
    match s.phase
    case Watching(x) => s.shared.current == Some(x) || (s.shared.status.Closed? && x in s.taken + s.closed)
    case Ended(x) => s.shared.current == Some(x) || (s.shared.status.Closed? && x in s.taken + s.closed)
    case Scheduling(clear) => s.shared.current.Some? ==> clear && s.shared.current.value in s.closed
    case Stopping => true
    case _ => s.shared.current.None?
  }

  ghost predicate Inv(s: State) {
    CurrentExactlyConnected(s.shared) && PhaseOk(s) && forall x <- s.issued :: Owned(s, x)
  }

  lemma StepKeepsOwnership(s: State, step: Step)
    requires Inv(s) && Apply(s, step).Some?
    ensures Inv(Apply(s, step).value)
  {}

  lemma {:induction false} RunKeepsOwnership(s: State, steps: seq<Step>)
    requires Inv(s) && Run(s, steps).Some?
    ensures Inv(Run(s, steps).value)
    decreases |steps|
  {
    hide Apply, Inv;
    if steps != [] {
      StepKeepsOwnership(s, steps[0]);
      RunKeepsOwnership(Apply(s, steps[0]).value, steps[1..]);
    }
  }

  /** In every interleaving of the scheduler with closing, a current session exists exactly
      while connected, and no session the connector returned is lost. */
  lemma SessionsAreOwned(steps: seq<Step>)
    requires Run(START, steps).Some?
    ensures var s := Run(START, steps).value;
            && (s.shared.current.Some? <==> s.shared.status.Connected?)
            && forall x <- s.issued ::
                 s.shared.current == Some(x) || Holds(s.phase, x) || x in s.taken || x in s.closed
  {
    assert Inv(START);
    RunKeepsOwnership(START, steps);
  }

  // Once the scheduler has returned and every closer has called close, all are closed.
  lemma NothingLeaks(steps: seq<Step>)
    requires Run(START, steps).Some?
    requires var s := Run(START, steps).value; s.phase.Finished? && s.taken == {}
    ensures Run(START, steps).value.issued <= Run(START, steps).value.closed
  {
    assert Inv(START);
    RunKeepsOwnership(START, steps);
    var s := Run(START, steps).value;
    forall x | x in s.issued
      ensures x in s.closed
    {
      assert Owned(s, x);
    }
  }

  // Closed is final: nothing changes the shared state again, and nothing is published.
  lemma {:induction false} ClosedIsFinal(s: State, steps: seq<Step>)
    requires s.shared.status.Closed? && Run(s, steps).Some?
    ensures Run(s, steps).value.shared == s.shared
    decreases |steps|
  {
    if steps != [] {
      ClosedStaysPut(s, steps[0]);
      hide Apply;
      ClosedIsFinal(Apply(s, steps[0]).value, steps[1..]);
    }
  }

  lemma ClosedStaysPut(s: State, step: Step)
    requires s.shared.status.Closed? && Apply(s, step).Some?
    ensures Apply(s, step).value.shared == s.shared
  {}

  // ----- Status, deadlines and revisions --------------------------------------------

  // The status that each phase leaves, unless the controller has been closed.
  ghost predicate StatusOk(s: State) {
    var open := !s.shared.status.Closed?;
    match s.phase
    case NotStarted => open ==> s.shared.status.Idle?
    case LoopTop => open ==> s.shared.status.Idle? || s.shared.status.Waiting?
    case Starting => open ==> s.shared.status.Idle? || s.shared.status.Waiting?
    case Watching(_) => open ==> s.shared.status.Connected?
    case Ended(_) => open ==> s.shared.status.Connected?
    case Scheduling(clear) => open ==> if clear then s.shared.status.Connected? else s.shared.status.Connecting?
    case Sleeping => open ==> s.shared.status.Waiting?
    case ClosingOwn(_, stopAfter) => if stopAfter then s.cancelled else s.shared.status.Closed?
    case Stopping => s.cancelled
    case Finished => s.shared.status.Closed? || s.shared.status.Failed? || (s.cancelled && s.shared.status.Waiting?)
    case _ => open ==> s.shared.status.Connecting?
  }

  ghost predicate StatusInv(s: State) {
    && StatusOk(s)
    && (s.shared.nextRetryAt.Some? <==> s.shared.status.Waiting?)
    && (s.shared.retryNotBefore.Some? ==> s.shared.status.Waiting?)
    && (s.shared.status.Closed? ==> s.cancelled)
    && (s.shared.status.Failed? ==> s.phase.Finished?)
  }

  lemma StepKeepsStatus(s: State, step: Step)
    requires StatusInv(s) && Apply(s, step).Some?
    ensures StatusInv(Apply(s, step).value)
  {}

  lemma {:induction false} RunKeepsStatus(s: State, steps: seq<Step>)
    requires StatusInv(s) && Run(s, steps).Some?
    ensures StatusInv(Run(s, steps).value)
    decreases |steps|
  {
    hide Apply, StatusInv;
    if steps != [] {
      StepKeepsStatus(s, steps[0]);
      RunKeepsStatus(Apply(s, steps[0]).value, steps[1..]);
    }
  }

  /** In every run the status tells what the scheduler is doing, a retry time is shown
      exactly while waiting, and the scheduler returns only after it gave up or was cancelled. */
  lemma StatusTellsPhase(steps: seq<Step>)
    requires Run(START, steps).Some?
    ensures var s := Run(START, steps).value;
            && (s.shared.nextRetryAt.Some? <==> s.shared.status.Waiting?)
            && (s.shared.retryNotBefore.Some? ==> s.shared.status.Waiting?)
            && (s.shared.status.Closed? ==> s.cancelled)
            && (s.shared.status.Failed? ==> s.phase.Finished?)
            && (s.phase.Finished? ==> s.cancelled || s.shared.status.Failed?)
            && (s.phase.Sleeping? && !s.cancelled ==> s.shared.status.Waiting?)
            && (s.phase.Watching? && !s.cancelled ==> s.shared.status.Connected?)
            && (s.phase.Dialing? && !s.cancelled ==> s.shared.status.Connecting?)
  {
    assert StatusInv(START);
    RunKeepsStatus(START, steps);
  }

  // One step changes the shared fields together with the revision, or not at all.
  lemma StepRevises(s: State, step: Step)
    requires Apply(s, step).Some?
    ensures var c, d := s.shared, Apply(s, step).value.shared;
            && c.revision <= d.revision
            && (d == c || (!c.status.Closed? && (c.revision < 18_446_744_073_709_551_615 ==>
                                                   d.revision == c.revision + 1)))
            && (d.attempt != c.attempt ==>
                  && (step.BeginAttempt? || step.Publish? || step.GiveUp? || step.ScheduleRetry?)
                  && d.attempt == step.attempt)
            && (d.nextRetryAt != c.nextRetryAt && d.nextRetryAt.Some? ==>
                  step.ScheduleRetry? && d.nextRetryAt == Some(step.at) && d.retryNotBefore == step.notBefore)
  {}

  /** A revision stands for one shared state: as long as it has not saturated, an unchanged
      revision means that nothing has changed. */
  lemma {:induction false} RevisionIdentifies(s: State, steps: seq<Step>)
    requires Run(s, steps).Some?
    ensures var c, d := s.shared, Run(s, steps).value.shared;
            && c.revision <= d.revision
            && (c.revision == d.revision < 18_446_744_073_709_551_615 ==> d == c)
    decreases |steps|
  {
    hide Apply;
    if steps != [] {
      StepRevises(s, steps[0]);
      RevisionIdentifies(Apply(s, steps[0]).value, steps[1..]);
    }
  }

  /** The connector is never asked for a session while another is open: of the sessions it
      returned at most one is not in a closer's hands or closed. */
  lemma OneSessionAtATime(steps: seq<Step>, x: Session, y: Session)
    requires Run(START, steps).Some?
    requires var s := Run(START, steps).value;
             x in s.issued && y in s.issued && x !in s.taken + s.closed && y !in s.taken + s.closed
    ensures x == y
    ensures !Run(START, steps).value.phase.Dialing?
  {
    assert Inv(START);
    RunKeepsOwnership(START, steps);
    var s := Run(START, steps).value;
    assert Owned(s, x) && Owned(s, y);
  }

  // ----- Progress -------------------------------------------------------------------

  predicate OfScheduler(step: Step) {
    !step.Cancel? && !step.CloseTakes? && !step.CallClose?
  }

  // How far the scheduler is from returning once it has been cancelled.
  ghost function Distance(phase: Phase): nat {
    match phase
    case NotStarted => 14
    case Starting => 13
    case Acquiring => 12
    case Dialing => 11
    case Dialed(_) => 10
    case Publishing(_) => 9
    case Watching(_) => 8
    case Ended(_) => 7
    case Scheduling(_) => 6
    case Sleeping => 5
    case LoopTop => 4
    case ClosingOwn(_, _) => 2
    case Stopping => 1
    case Finished => 0
  }

  lemma CancelledStepNearsEnd(s: State, step: Step)
    requires s.cancelled && Apply(s, step).Some?
    ensures Apply(s, step).value.cancelled
    ensures OfScheduler(step) ==> Distance(Apply(s, step).value.phase) < Distance(s.phase)
    ensures !OfScheduler(step) ==> Apply(s, step).value.phase == s.phase
  {}

  ghost function SchedulerSteps(steps: seq<Step>): nat {
    if steps == [] then 0 else (if OfScheduler(steps[0]) then 1 else 0) + SchedulerSteps(steps[1..])
  }

  /** Once cancelled, the scheduler takes at most fourteen more steps, whoever else acts. */
  lemma {:induction false} CancelledSchedulerStops(s: State, steps: seq<Step>)
    requires s.cancelled && Run(s, steps).Some?
    ensures SchedulerSteps(steps) + Distance(Run(s, steps).value.phase) <= Distance(s.phase) <= 14
    decreases |steps|
  {
    hide Apply;
    if steps != [] {
      CancelledStepNearsEnd(s, steps[0]);
      CancelledSchedulerStops(Apply(s, steps[0]).value, steps[1..]);
    }
  }

  // A step that the scheduler can take, whatever the environment answers.
  function Following(s: State): Step {
    match s.phase
    case NotStarted => Start
    case LoopTop => CheckCancelled
    case Starting => BeginAttempt(0)
    case Acquiring => AcquireFailed
    case Dialing => DialReturns(None)
    case Dialed(_) => CheckDialed
    case Publishing(_) => Publish(0)
    case ClosingOwn(_, _) => CloseOwn
    case Watching(_) => SessionEnds
    case Ended(_) => CloseEnded
    case Scheduling(_) => GiveUp(0)
    case Sleeping => Wake
    case _ => StopNow
  }

  /** A scheduler that has been started and has not returned can always go on. */
  lemma SchedulerNeverStuck(s: State)
    ensures OfScheduler(Following(s))
    ensures Apply(s, Following(s)).None? <==>
            s.phase.Finished? || (s.phase.NotStarted? && s.shared.status.Closed?)
  {}

  /** Any session that is new to the controller can become the current one. */
  lemma AnySessionConnects(x: Session, attempt: nat)
    ensures var steps := [Start, CheckCancelled, BeginAttempt(attempt), AcquireOk, DialReturns(Some(x)),
                          CheckDialed, Publish(attempt)];
            && Run(START, steps).Some?
            && var s := Run(START, steps).value;
               s.shared.current == Some(x) && s.shared.attempt == attempt && s.issued == {x} && s.phase == Watching(x)
  {
    var shared := Shared(Connecting, None, attempt, None, None, 1);
    var dialing := State(shared, false, Dialing, {}, {}, {});
    Dials(attempt, dialing);
    Publishes(dialing, x, attempt);
    var first := [Start, CheckCancelled, BeginAttempt(attempt), AcquireOk];
    var last := [DialReturns(Some(x)), CheckDialed, Publish(attempt)];
    hide Run, Apply;
    RunJoins(START, first, last, dialing);
    assert first + last == [Start, CheckCancelled, BeginAttempt(attempt), AcquireOk, DialReturns(Some(x)),
                            CheckDialed, Publish(attempt)];
  }

  lemma Dials(attempt: nat, dialing: State)
    requires dialing == State(Shared(Connecting, None, attempt, None, None, 1), false, Dialing, {}, {}, {})
    ensures Run(START, [Start, CheckCancelled, BeginAttempt(attempt), AcquireOk]) == Some(dialing)
  {
    var a := Apply(START, Start).value;
    var b := Apply(a, CheckCancelled).value;
    var c := Apply(b, BeginAttempt(attempt)).value;
    assert Apply(c, AcquireOk) == Some(dialing);
    hide Apply;
    Leads(c, [AcquireOk], dialing, dialing);
    Leads(b, [BeginAttempt(attempt), AcquireOk], c, dialing);
    Leads(a, [CheckCancelled, BeginAttempt(attempt), AcquireOk], b, dialing);
    Leads(START, [Start, CheckCancelled, BeginAttempt(attempt), AcquireOk], a, dialing);
  }

  lemma Publishes(s: State, x: Session, attempt: nat)
    requires s.phase.Dialing? && !s.cancelled && !s.shared.status.Closed? && x !in s.issued
    ensures var r := Run(s, [DialReturns(Some(x)), CheckDialed, Publish(attempt)]);
            && r.Some? && r.value.shared.current == Some(x) && r.value.shared.attempt == attempt
            && r.value.issued == s.issued + {x} && r.value.phase == Watching(x)
  {
    var a := Apply(s, DialReturns(Some(x))).value;
    var b := Apply(a, CheckDialed).value;
    var c := Apply(b, Publish(attempt)).value;
    hide Apply;
    Leads(b, [Publish(attempt)], c, c);
    Leads(a, [CheckDialed, Publish(attempt)], b, c);
    Leads(s, [DialReturns(Some(x)), CheckDialed, Publish(attempt)], a, c);
  }

  lemma {:induction false} RunJoins(s: State, first: seq<Step>, last: seq<Step>, t: State)
    requires Run(s, first) == Some(t)
    ensures Run(s, first + last) == Run(t, last)
    decreases |first|
  {
    hide Apply;
    if first == [] {
      assert first + last == last;
    } else {
      assert (first + last)[1..] == first[1..] + last;
      RunJoins(Apply(s, first[0]).value, first[1..], last, t);
    }
  }

  lemma Leads(s: State, steps: seq<Step>, t: State, u: State)
    requires steps != [] && Apply(s, steps[0]) == Some(t)
    requires if steps[1..] == [] then u == t else Run(t, steps[1..]) == Some(u)
    ensures Run(s, steps) == Some(u)
  {
    hide Apply;
  }

  /** Closing takes effect in every state: the controller is closed, it shows no session, and
      the one it showed is the closer's to close. */
  lemma CloseTakesEffect(s: State)
    ensures Apply(s, Cancel).Some? && Apply(Apply(s, Cancel).value, CloseTakes).Some?
    ensures var t := Apply(Apply(s, Cancel).value, CloseTakes).value;
            && t.cancelled && t.phase == s.phase && t.shared.status.Closed?
            && (!s.shared.status.Closed? ==>
                  && t.shared.current.None?
                  && t.taken == s.taken + if s.shared.current.Some? then {s.shared.current.value} else {})
            && forall x <- t.taken ::
                 && Apply(t, CallClose(x)).Some?
                 && x in Apply(t, CallClose(x)).value.closed && x !in Apply(t, CallClose(x)).value.taken
  {}
}
