/** What each kind of step may touch. */
module SessionFrames {
  import opened Basics
  import opened Ledgers
  import opened Session

  lemma PostTouches(s: System, body: Body, t: System)
    requires t == Post(s, body)
    ensures t == s.(a := s.a.(labels := t.a.labels, failure := t.a.failure), ab := t.ab)
  {
  }

  lemma OpenerTouches(s: System, step: OpenerStep, t: System)
    requires TakeOpener(s, step) == Some(t)
    ensures t == s.(a := s.a.(opens := t.a.opens, goaways := t.a.goaways, labels := t.a.labels, streams := t.a.streams,
                              failure := t.a.failure),
                    ab := t.ab, carriers := t.carriers)
    ensures !step.SRegisterOpened? ==> t.a.streams == s.a.streams
    ensures !step.SBeginOpen? ==> t.a.goaways == s.a.goaways
    ensures !step.SWriteAbandonReset? ==> t.ab == s.ab && t.a.labels == s.a.labels
  {
    hide MarkFss2, MarkTerminal, CarrierOf, OpenAllowed;
  }

  lemma AcceptorTouches(s: System, step: AcceptorStep, t: System)
    requires TakeAcceptor(s, step) == Some(t)
    ensures t == s.(a := s.a.(accepts := t.a.accepts, streams := t.a.streams, failure := t.a.failure),
                    carriers := t.carriers)
    ensures !step.SRegisterAccepted? ==> t.a.streams == s.a.streams
    ensures !step.SMarkSetup? && !step.SMarkAccepted? ==> t.a.accepts.ledger == s.a.accepts.ledger
    ensures !step.SWriteOpenAck? ==> t.a.accepts.fixed == s.a.accepts.fixed
  {
    hide MarkFss2, MarkLateFss2, MarkTerminal, ValidId, CarrierOf, RefusedByGoaway, StateOf;
  }

  lemma RekeyTouches(s: System, step: RekeyStep, t: System)
    requires TakeRekey(s, step) == Some(t)
    ensures t == s.(a := s.a.(keys := t.a.keys, labels := t.a.labels, rekeys := t.a.rekeys, guards := t.a.guards,
                              streams := t.a.streams, failure := t.a.failure),
                    ab := t.ab)
    ensures t.a.keys.recvEpoch == s.a.keys.recvEpoch && t.a.rekeys.peer == s.a.rekeys.peer
    ensures !step.SFinishRekey? ==> t.a.keys.recvRoots == s.a.keys.recvRoots
    ensures !step.SWriteKeyUpdate? ==> t.ab == s.ab
    ensures t.a.streams.Keys == s.a.streams.Keys
  {
    hide Frontier, ActiveSend, StreamsSwitched, Retain;
  }

  lemma ResetTouches(s: System, id: nat, t: System)
    requires t == ReceiveReset(s, id)
    ensures t == s.(a := s.a.(opens := t.a.opens, accepts := t.a.accepts, streams := t.a.streams,
                              failure := t.a.failure))
    ensures t.a.opens == s.a.opens.(outbound := t.a.opens.outbound)
    ensures t.a.accepts == s.a.accepts.(ledger := t.a.accepts.ledger)
    ensures t.a.streams.Keys == s.a.streams.Keys
  {
    hide Known, MarkPeerReset;
  }

  /** What acting on a record may touch. */
  predicate DispatchFrame(s: System, t: System) {
    && t == s.(a := s.a.(labels := t.a.labels, rekeys := t.a.rekeys, opens := t.a.opens, accepts := t.a.accepts,
                         goaways := t.a.goaways, streams := t.a.streams, failure := t.a.failure),
               ab := t.ab)
    && t.a.opens == s.a.opens.(outbound := t.a.opens.outbound)
    && t.a.accepts == s.a.accepts.(ledger := t.a.accepts.ledger)
    && t.a.goaways == s.a.goaways.(received := t.a.goaways.received)
    && (t.a.rekeys.peer == s.a.rekeys.peer || t.a.rekeys.peer.PeerDraining?)
    && t.a.streams.Keys == s.a.streams.Keys
  }

  lemma DispatchTouches(s: System, body: Body, t: System)
    requires t == Dispatch(s, body)
    ensures DispatchFrame(s, t)
  {
    hide Known, ReceiveReset, ValidBoundary, Post;
    match body
    case Reset(id) => ResetTouches(s, id, t);
    case Ping(nonce) => PostTouches(s, Pong(nonce), t);
    case _ =>
  }

  lemma ReadTouches(s: System, t: System)
    requires ReadControl(s) == Some(t)
    ensures s.ba != [] && t.ba == s.ba[1..] && DispatchFrame(s.(ba := s.ba[1..]), t)
  {
    hide Dispatch;
    if Accept(s).a.failure.None? {
      DispatchTouches(Accept(s), s.ba[0].body, t);
    }
  }

  lemma PeerRekeyTouches(s: System, step: ControlStep, t: System)
    requires !step.SReadControl? && TakeControl(s, step) == Some(t)
    ensures t == s.(a := s.a.(keys := t.a.keys, labels := t.a.labels, rekeys := t.a.rekeys, streams := t.a.streams,
                              failure := t.a.failure),
                    ab := t.ab)
    ensures t.a.keys.sendEpoch == s.a.keys.sendEpoch && t.a.rekeys.local == s.a.rekeys.local
    ensures step.SWriteKeyAck? || step.SNoteActivity? ==> t.a.keys == s.a.keys && !t.a.rekeys.peer.AwaitingStreams?
    ensures !step.SWriteKeyAck? ==> t.ab == s.ab
    ensures t.a.streams.Keys == s.a.streams.Keys
  {
    hide Frontier, ActiveReceive, StreamsUpdated, Retain;
  }

  lemma GoawayTouches(s: System, step: GoawayStep, t: System)
    requires TakeGoaway(s, step) == Some(t)
    ensures t == s.(a := s.a.(goaways := t.a.goaways, labels := t.a.labels, failure := t.a.failure), ab := t.ab)
    ensures t.a.goaways.received == s.a.goaways.received
    ensures !step.SPostBoundary? ==> t.ab == s.ab
  {
    hide Frontier;
  }

  lemma StreamTouches(s: System, step: StreamStep, t: System)
    requires TakeStream(s, step) == Some(t)
    ensures t == s.(a := s.a.(keys := t.a.keys, labels := t.a.labels, streams := t.a.streams,
                              resetting := t.a.resetting, failure := t.a.failure),
                    ab := t.ab, carriers := t.carriers)
    ensures t.a.keys == s.a.keys.(recvRoots := t.a.keys.recvRoots)
    ensures !step.SReadStreamUpdate? ==> t.a.keys == s.a.keys
    ensures !step.SWriteReset? ==> t.ab == s.ab
    ensures t.a.streams.Keys <= s.a.streams.Keys
  {
  }

  lemma OtherTouches(s: System, step: Step, t: System)
    requires (step.SPing? || step.SFail?) && Take(s, step) == Some(t)
    ensures t == s.(a := s.a.(labels := t.a.labels, failure := t.a.failure), ab := t.ab)
    ensures step.SFail? ==> t.ab == s.ab
  {
    hide TakeOpener, TakeAcceptor, TakeRekey, TakeControl, TakeGoaway, TakeStream;
  }

  predicate RegistersAccepted(step: Step) {
    step.OfAcceptor? && step.acceptor.SRegisterAccepted?
  }

  /** Streams are registered by two steps only. */
  lemma OnlyRegisteringAdds(s: System, step: Step, t: System)
    requires Take(s, step) == Some(t) && step != OfOpener(SRegisterOpened) && !RegistersAccepted(step)
    ensures t.a.streams.Keys <= s.a.streams.Keys
  {
    hide TakeOpener, TakeAcceptor, TakeRekey, TakeGoaway, TakeStream, ReadControl, CheckUpdate, AdoptUpdate,
      WriteKeyAck, FinishPeerRekey, Post;
    match step
    case OfOpener(opener) => OpenerTouches(s, opener, t);
    case OfAcceptor(acceptor) => AcceptorTouches(s, acceptor, t);
    case OfRekey(rekey) => RekeyTouches(s, rekey, t);
    case OfControl(control) => if control.SReadControl? { ReadTouches(s, t); } else { PeerRekeyTouches(s, control, t); }
    case OfGoaway(goaway) => GoawayTouches(s, goaway, t);
    case OfStream(stream) => StreamTouches(s, stream, t);
    case _ => OtherTouches(s, step, t);
  }
}
