/** The flags of streams and of rekeys: which step sets each of them, over all runs. */
module SessionFlags {
  import opened Basics
  import opened Ledgers
  import opened Session
  import opened SessionFrames
  import opened SessionInvariant
  import opened SessionTheorems

  // ----- Streams --------------------------------------------------------------------

  predicate SameFlags(st: Stream, next: Stream) {
    next.reset == st.reset && next.localFin == st.localFin && next.remoteFin == st.remoteFin
  }

  ghost predicate FlagsKept(s: System, t: System) {
    forall id | id in s.a.streams && id in t.a.streams :: SameFlags(s.a.streams[id], t.a.streams[id])
  }

  predicate Registering(step: Step) {
    step == OfOpener(SRegisterOpened) || RegistersAccepted(step)
  }

  lemma RekeyKeepsFlags(s: System, step: RekeyStep, t: System)
    requires TakeRekey(s, step) == Some(t)
    ensures FlagsKept(s, t)
  {
    hide Frontier, ActiveSend, StreamsSwitched, Retain;
  }

  lemma PeerRekeyKeepsFlags(s: System, step: ControlStep, t: System)
    requires !step.SReadControl? && TakeControl(s, step) == Some(t)
    ensures FlagsKept(s, t)
  {
    hide Frontier, ActiveReceive, StreamsUpdated, Retain;
  }

  // A reset that is read sets the flag of its stream.
  lemma ReadSetsFlags(s: System, t: System, id: nat)
    requires ReadControl(s) == Some(t) && s.a.failure.None? && t.a.failure.None? && id in s.a.streams
    ensures id in t.a.streams && s.ba != []
    ensures t.a.streams[id].reset <==> s.a.streams[id].reset || s.ba[0].body == Reset(id)
    ensures t.a.streams[id].localFin == s.a.streams[id].localFin
    ensures t.a.streams[id].remoteFin == s.a.streams[id].remoteFin
  {
    hide Known, MarkPeerReset, ValidBoundary;
    var u := Accept(s);
    assert u.a.streams == s.a.streams;
    hide Accept;
  }

  lemma StreamStepSetsFlags(s: System, step: StreamStep, t: System, id: nat)
    requires TakeStream(s, step) == Some(t) && id in s.a.streams && id in t.a.streams
    ensures t.a.streams[id].reset <==> s.a.streams[id].reset || step == SResetStream(id)
    ensures t.a.streams[id].localFin <==> s.a.streams[id].localFin || step == SCloseWrite(id)
    ensures t.a.streams[id].remoteFin <==> s.a.streams[id].remoteFin || step == SReadStreamFin(id)
  {
  }

  ghost predicate FlagsSetBy(s: System, step: Step, t: System, id: nat)
    requires id in s.a.streams && id in t.a.streams
  {
    var st, next := s.a.streams[id], t.a.streams[id];
    && (next.reset <==> || st.reset || step == OfStream(SResetStream(id))
                        || (step == OfControl(SReadControl) && s.ba != [] && s.ba[0].body == Reset(id)))
    && (next.localFin <==> st.localFin || step == OfStream(SCloseWrite(id)))
    && (next.remoteFin <==> st.remoteFin || step == OfStream(SReadStreamFin(id)))
  }

  lemma OtherStepsSetFlags(s: System, step: Step, t: System, id: nat)
    requires Take(s, step) == Some(t) && s.a.failure.None? && t.a.failure.None? && !Registering(step)
    requires id in s.a.streams && id in t.a.streams
    ensures FlagsSetBy(s, step, t, id)
  {
    hide TakeOpener, TakeAcceptor, TakeRekey, TakeGoaway, TakeStream, ReadControl, CheckUpdate, AdoptUpdate,
      WriteKeyAck, FinishPeerRekey, Post;
    match step
    case OfOpener(opener) => OpenerTouches(s, opener, t);
    case OfAcceptor(acceptor) => AcceptorTouches(s, acceptor, t);
    case OfRekey(rekey) => RekeyKeepsFlags(s, rekey, t);
    case OfControl(control) =>
      if control.SReadControl? { ReadSetsFlags(s, t, id); } else { PeerRekeyKeepsFlags(s, control, t); }
    case OfGoaway(goaway) => GoawayTouches(s, goaway, t);
    case OfStream(stream) => StreamStepSetsFlags(s, stream, t, id);
    case _ => OtherTouches(s, step, t);
  }

  lemma StreamIdsPart(s: System)
    requires Invariant(s)
    ensures StreamIdsHold(s)
  {
    hide StreamIdsHold;
  }

  // Registering adds one stream, which was not there before, with every flag down.
  lemma RegisteringSetsNothing(s: System, step: Step, t: System, id: nat)
    requires Take(s, step) == Some(t) && Registering(step) && StreamIdsHold(s) && id in t.a.streams
    ensures id in s.a.streams ==> t.a.streams[id] == s.a.streams[id]
    ensures id !in s.a.streams ==>
              var st := t.a.streams[id];
              && !st.reset && !st.localFin && !st.remoteFin
              && st.sendUpdate.None? && st.sendUpdateAck.None? && st.recvUpdate.None?
  {
    hide Known, TakeRekey, TakeGoaway, TakeStream, TakeControl, StateOf;
  }

  /** In every run a stream starts with its flags down, and each flag goes up for good by one
      kind of step: FIN by reading it, the closed writing side by closing it, and reset by
      resetting the stream or by reading the peer's STREAM_RESET. */
  lemma StreamFlagsExactly(s: System, step: Step, t: System, id: nat)
    requires Occurs(s) && Live(s) && Take(s, step) == Some(t) && t.a.failure.None? && id in t.a.streams
    ensures id in s.a.streams ==> FlagsSetBy(s, step, t, id)
    ensures id !in s.a.streams ==>
              var st := t.a.streams[id];
              && Registering(step) && !st.reset && !st.localFin && !st.remoteFin
              && st.sendUpdate.None? && st.sendUpdateAck.None? && st.recvUpdate.None?
  {
    hide Occurs, Invariant, Take, StreamIdsHold;
    OccursInvariant(s);
    StreamIdsPart(s);
    if Registering(step) {
      RegisteringSetsNothing(s, step, t, id);
    } else {
      OnlyRegisteringAdds(s, step, t);
      OtherStepsSetFlags(s, step, t, id);
    }
  }

  // ----- Rekeys ---------------------------------------------------------------------

  /** A flag that is up belongs to a rekey in progress, or to a guard that an ended rekey has
      not dropped yet. */
  predicate Owned(e: Endpoint) {
    && (e.guards.frozen ==> !e.rekeys.local.Idle? || e.guards.freezes > 0)
    && (e.guards.rekeying ==> !e.rekeys.local.Idle? || e.guards.freezes > 0 || e.guards.activities > 0)
  }

  lemma RekeyKeepsOwned(s: System, step: RekeyStep, t: System)
    requires TakeRekey(s, step) == Some(t) && Owned(s.a)
    ensures Owned(t.a) && t.b == s.b
  {
    hide Frontier, ActiveSend, StreamsSwitched, Retain;
  }

  lemma ReadKeepsLocal(s: System, t: System)
    requires ReadControl(s) == Some(t)
    ensures t.a.rekeys.local.Idle? <==> s.a.rekeys.local.Idle?
    ensures t.a.guards == s.a.guards && t.b == s.b
  {
    ReadTouches(s, t);
    hide Known, MarkPeerReset, ValidBoundary;
  }

  lemma StepKeepsOwned(s: System, step: Step, t: System)
    requires Take(s, step) == Some(t) && Owned(s.a)
    ensures Owned(t.a) && t.b == s.b
  {
    hide TakeOpener, TakeAcceptor, TakeRekey, TakeGoaway, TakeStream, ReadControl, CheckUpdate, AdoptUpdate,
      WriteKeyAck, FinishPeerRekey, Post;
    match step
    case OfOpener(opener) => OpenerTouches(s, opener, t);
    case OfAcceptor(acceptor) => AcceptorTouches(s, acceptor, t);
    case OfRekey(rekey) => RekeyKeepsOwned(s, rekey, t);
    case OfControl(control) =>
      if control.SReadControl? { ReadKeepsLocal(s, t); } else { PeerRekeyTouches(s, control, t); }
    case OfGoaway(goaway) => GoawayTouches(s, goaway, t);
    case OfStream(stream) => StreamTouches(s, stream, t);
    case _ => OtherTouches(s, step, t);
  }

  lemma {:induction false} RunKeepsOwned(s: System, moves: seq<Move>, t: System)
    requires PlayAll(s, moves) == Some(t) && Owned(s.a) && Owned(s.b)
    ensures Owned(t.a) && Owned(t.b)
    decreases |moves|
  {
    hide Take, Owned;
    if moves != [] {
      var u := Play(s, moves[0]).value;
      match moves[0] {
        case ByA(step) => StepKeepsOwned(s, step, u);
        case ByB(step) => StepKeepsOwned(Swap(s), step, Swap(u));
      }
      RunKeepsOwned(u, moves[1..], t);
    }
  }

  /** In every run a responder freeze that is up is that of a rekey in progress or of a guard
      not dropped yet, and so is the activity flag: an endpoint at rest is never frozen. */
  lemma FlagsHaveOwners(s: System)
    requires Occurs(s)
    ensures s.a.guards.frozen ==> s.a.rekeys.local != Idle || s.a.guards.freezes > 0
    ensures s.a.guards.rekeying ==>
              s.a.rekeys.local != Idle || s.a.guards.freezes > 0 || s.a.guards.activities > 0
  {
    hide PlayAll;
    var r := if Reachable(s) then s else Swap(s);
    var moves :| PlayAll(Established(), moves) == Some(r);
    RunKeepsOwned(Established(), moves, r);
  }
}
