/** Registered streams and the session's send epoch: exactly when a stream that may still
    send is left behind by a rekey of its session. */
module SessionStreams {
  import opened Basics
  import opened Ledgers
  import opened Session
  import opened SessionFrames
  import opened SessionInvariant
  import opened SessionTheorems

  /** Every stream that may still send does so at the session's epoch. */
  predicate AllCurrent(e: Endpoint) {
    forall id | id in e.streams && Active(e.streams[id]) :: e.streams[id].sendEpoch == e.keys.sendEpoch
  }

  /** A responder registers its stream at an epoch that the session has left. */
  predicate RegistersLate(s: System, step: Step) {
    && RegistersAccepted(step) && step.acceptor.id in s.a.accepts.serving
    && s.a.accepts.serving[step.acceptor.id].AckSent?
    && s.a.accepts.serving[step.acceptor.id].sendEpoch != s.a.keys.sendEpoch
  }

  /** No stream becomes active, and none that is changes its send epoch. */
  predicate Calm(s: System, t: System) {
    && t.a.keys.sendEpoch == s.a.keys.sendEpoch
    && forall id | id in t.a.streams && Active(t.a.streams[id]) ::
         id in s.a.streams && Active(s.a.streams[id]) && t.a.streams[id].sendEpoch == s.a.streams[id].sendEpoch
  }

  lemma RekeyCalm(s: System, step: RekeyStep, t: System)
    requires TakeRekey(s, step) == Some(t) && Uncommitted(s.a.rekeys.local)
    ensures Calm(s, t)
  {
    hide Frontier, ActiveSend, Drained;
  }

  lemma PeerRekeyCalm(s: System, step: ControlStep, t: System)
    requires !step.SReadControl? && TakeControl(s, step) == Some(t)
    ensures Calm(s, t)
  {
    hide Frontier, ActiveReceive, StreamsUpdated, Retain;
  }

  lemma ReadCalm(s: System, t: System)
    requires ReadControl(s) == Some(t)
    ensures Calm(s, t)
  {
    ReadTouches(s, t);
    hide Known, MarkPeerReset, ValidBoundary;
  }

  lemma StreamCalm(s: System, step: StreamStep, t: System)
    requires TakeStream(s, step) == Some(t) && StreamsHold(s) && Uncommitted(s.a.rekeys.local)
    ensures Calm(s, t)
  {
    if step.SReadStreamAck? {
      StreamFacts(s, step.id);
    }
    hide StreamsHold;
  }

  lemma StreamsPart(s: System)
    requires Invariant(s)
    ensures StreamsHold(s) && LockHolds(s)
  {
    hide StreamsHold, LockHolds;
  }

  lemma OtherStepsCalm(s: System, step: Step, t: System)
    requires Take(s, step) == Some(t) && StreamsHold(s) && Uncommitted(s.a.rekeys.local)
    requires step != OfOpener(SRegisterOpened) && !RegistersAccepted(step)
    ensures Calm(s, t)
  {
    hide TakeOpener, TakeAcceptor, TakeRekey, TakeGoaway, TakeStream, ReadControl, CheckUpdate, AdoptUpdate,
      WriteKeyAck, FinishPeerRekey, Post, StreamsHold;
    match step
    case OfOpener(opener) => OpenerTouches(s, opener, t);
    case OfAcceptor(acceptor) => AcceptorTouches(s, acceptor, t);
    case OfRekey(rekey) => RekeyCalm(s, rekey, t);
    case OfControl(control) => if control.SReadControl? { ReadCalm(s, t); } else { PeerRekeyCalm(s, control, t); }
    case OfGoaway(goaway) => GoawayTouches(s, goaway, t);
    case OfStream(stream) => StreamCalm(s, stream, t);
    case _ => OtherTouches(s, step, t);
  }

  lemma RegisteringCurrent(s: System, step: Step, t: System)
    requires Take(s, step) == Some(t) && LockHolds(s) && AllCurrent(s.a)
    requires step == OfOpener(SRegisterOpened) || RegistersAccepted(step)
    ensures AllCurrent(t.a) <==> !RegistersLate(s, step)
  {
    hide Known, Settled, TakeRekey, TakeGoaway, TakeStream, TakeControl;
    var id := if step.OfOpener? then s.a.opens.opening.value.id else step.acceptor.id;
    assert id in t.a.streams && Active(t.a.streams[id]);
  }

  /** Outside the committed part of a rekey, a stream falls behind exactly when a responder
      registers it late. */
  lemma LeftBehindExactly(s: System, step: Step, t: System)
    requires Occurs(s) && Live(s) && Take(s, step) == Some(t)
    requires Uncommitted(s.a.rekeys.local) && AllCurrent(s.a)
    ensures AllCurrent(t.a) <==> !RegistersLate(s, step)
  {
    hide Occurs, Invariant, Live, Take, StreamsHold, LockHolds;
    OccursInvariant(s);
    StreamsPart(s);
    if step == OfOpener(SRegisterOpened) || RegistersAccepted(step) {
      RegisteringCurrent(s, step, t);
    } else {
      OtherStepsCalm(s, step, t);
    }
  }

  /** A rekey that ends leaves every active stream at the new epoch exactly when those that
      its plan missed are there already. */
  lemma RekeyLeavesBehindExactly(s: System, t: System)
    requires Occurs(s) && Live(s) && FinishRekey(s) == Some(t)
    ensures AllCurrent(t.a) <==>
            forall id | id in s.a.streams && Active(s.a.streams[id]) && id !in s.a.rekeys.local.plan.streams ::
              s.a.streams[id].sendEpoch == s.a.keys.sendEpoch
  {
    hide Occurs, Invariant, Live;
    forall id | id in s.a.rekeys.local.plan.streams
      ensures id in t.a.streams && t.a.streams[id].sendEpoch == t.a.keys.sendEpoch
    {
      PlannedStreamSwitched(s, t, id);
    }
  }
}
