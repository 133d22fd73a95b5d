/** The steps that take up the peer's key update, and the stream steps, keep the invariant. */
module SessionAdopting {
  import opened Basics
  import opened Ledgers
  import opened Session
  import opened SessionInvariant
  import opened SessionPosting
  import opened SessionReading

  /** The receiver works on the very update that the sender has outstanding. */
  lemma HeldUpdate(s: System)
    requires PlanHolds(Swap(s)) && LockstepHolds(Swap(s)) && Held(s.a.rekeys.peer) != []
    ensures s.b.rekeys.local.AwaitingAck? && s.a.rekeys.peer.update == s.b.rekeys.local.plan.update
    ensures Announces(s.b.rekeys.local.plan, s.b.keys.sendEpoch, s.b.opens.highWatermark)
    ensures Updates(s.ba) == [] && Acks(s.ab) == []
  {
    hide Updates, Acks;
    var all := Updates(s.ba) + Held(s.a.rekeys.peer) + Acks(s.ab);
    assert all[|Updates(s.ba)|] == s.a.rekeys.peer.update && |all| <= 1;
  }

  // ----- Watermark agreement --------------------------------------------------------

  /** Once its responders have drained, the receiver's frontier is the sender's watermark. */
  lemma WatermarkReached(s: System)
    requires s.b.role == Other(s.a.role)
    requires s.a.rekeys.peer.PeerDraining? && Drained(s.a.accepts)
    requires OpensHold(Swap(s)) && AcceptsHold(s) && SetupsHold(Swap(s)) && CoverHolds(Swap(s))
    ensures Frontier(s.a.accepts.ledger) == s.b.opens.highWatermark
  {
    hide Ordinal, ValidId, Frontier, Updates, ResetsBefore;
    var l := s.a.accepts.ledger;
    var high := s.b.opens.highWatermark;
    forall id: nat | Known(s.b.role, id) && id <= high ensures Settled(l, id) {
      assert Answered(l, s.a.accepts.serving, id);
    }
    assert SettledUpTo(l, high);
    FrontierOfPrefix(l, high);
  }

  lemma CheckUpdatePasses(s: System, t: System)
    requires CheckUpdate(s) == Some(t) && s.b.role == Other(s.a.role)
    requires KeysHold(s) && PlanHolds(s) && AcceptsHold(s)
    requires PlanHolds(Swap(s)) && OpensHold(Swap(s)) && LockstepHolds(Swap(s))
    requires SetupsHold(Swap(s)) && CoverHolds(Swap(s))
    ensures t.a.failure == s.a.failure && t.a.rekeys.peer.AwaitingStreams?
    ensures t == s.(a := s.a.(keys := t.a.keys, rekeys := t.a.rekeys))
    ensures t.a.rekeys == s.a.rekeys.(peer := t.a.rekeys.peer) && t.a.rekeys.peer.update == s.a.rekeys.peer.update
    ensures var next := s.a.rekeys.peer.update.nextEpoch;
            t.a.keys == s.a.keys.(recvRoots := s.a.keys.recvRoots[next :=
                          NextEpoch(s.a.keys.recvRoots[s.a.keys.recvEpoch], SendDirection(s.b.role), next)])
    ensures s.a.rekeys.peer.update.nextEpoch == s.a.keys.recvEpoch + 1
    ensures s.a.keys.recvEpoch in s.a.keys.recvRoots
  {
    hide OpensOk, AcceptsOk, SetupsOk, UpdateCovered, OnSchedule, Derived, Frontier, Updates, Acks, ResetsBefore;
    HeldUpdate(s);
    WatermarkReached(s);
  }

  lemma CheckUpdateKeeps(s: System, t: System)
    requires CheckUpdate(s) == Some(t) && s.b.role == Other(s.a.role)
    requires t == s.(a := s.a.(keys := t.a.keys, rekeys := t.a.rekeys))
    requires t.a.rekeys == s.a.rekeys.(peer := t.a.rekeys.peer) && t.a.rekeys.peer.AwaitingStreams?
    requires t.a.rekeys.peer.update == s.a.rekeys.peer.update
    requires KeysHold(s) && PlanHolds(s) && FreezeHolds(s)
    requires ReaderHolds(Swap(s)) && LockstepHolds(Swap(s)) && CoverHolds(Swap(s))
    requires t.a.keys == s.a.keys.(recvRoots := t.a.keys.recvRoots)
    requires OnSchedule(t.a.keys.recvRoots, SendDirection(s.b.role))
    ensures KeysHold(t) && PlanHolds(t) && FreezeHolds(t)
    ensures ReaderHolds(Swap(t)) && LockstepHolds(Swap(t)) && CoverHolds(Swap(t))
  {
    hide Known, Answered, OnSchedule, Derived, Frontier, Updates, Acks, ResetsBefore;
  }

  lemma ScheduleExtends(roots: map<nat, Roots>, d: Direction, e: nat)
    requires OnSchedule(roots, d) && e in roots
    ensures OnSchedule(roots[e + 1 := NextEpoch(roots[e], d, e + 1)], d)
  {
  }

  lemma CheckUpdateSafe(s: System, t: System)
    requires Live(s) && Invariant(s) && CheckUpdate(s) == Some(t)
    ensures Safe(t)
  {
    hide Known, ValidId, Ordinal, NextId, FirstId, KeysOk, PlanOk, OpensOk, LockOk, AcceptsOk, FreezeOk, AckEpochsOk,
      StreamsOk, StreamIdsOk, Chain, UpdatesLabelled, ReaderOk, Lockstep, SetupsOk, ResolutionsOk, ResetsOk, FreshOk,
      UpdateCovered, SetupEpochsOk, AgreeOk, GuardsOk, ResettingOk, BoundariesOk, Announcing, Updates, Acks, Resets,
      ResetsBefore, Boundaries, Frontier, OnSchedule;
    CheckUpdatePasses(s, t);
    RecvOnSchedule(s);
    ScheduleExtends(s.a.keys.recvRoots, SendDirection(s.b.role), s.a.keys.recvEpoch);
    CheckUpdateKeeps(s, t);
  }

  lemma RecvOnSchedule(s: System)
    requires KeysHold(s)
    ensures OnSchedule(s.a.keys.recvRoots, SendDirection(Other(s.a.role)))
  {
  }

  // ----- Adopting -------------------------------------------------------------------

  lemma AdoptKeepsOwn(s: System, t: System)
    requires AdoptUpdate(s) == Some(t) && s.b.role == Other(s.a.role)
    requires KeysHold(s) && PlanHolds(s) && FreezeHolds(s) && StreamsHold(s)
    requires PlanHolds(Swap(s)) && LockstepHolds(Swap(s)) && ReaderHolds(Swap(s))
    ensures KeysHold(t) && PlanHolds(t) && FreezeHolds(t) && StreamsHold(t)
    ensures LockstepHolds(Swap(t)) && ReaderHolds(Swap(t)) && t.a.streams.Keys == s.a.streams.Keys
  {
    hide OnSchedule, Derived, Updates, Acks, Known;
    HeldUpdate(s);
  }

  /** Prefaces still in flight belong to IDs that the peer has abandoned by now. */
  lemma AdoptKeepsPeer(s: System, t: System)
    requires AdoptUpdate(s) == Some(t) && s.b.role == Other(s.a.role)
    requires FreezeHolds(s) && SetupsHold(Swap(s)) && CoverHolds(Swap(s)) && SetupEpochsHold(Swap(s))
    ensures CoverHolds(Swap(t)) && SetupEpochsHold(Swap(t))
  {
    hide Ordinal, NextId, FirstId, Updates, ResetsBefore, Frontier;
    assert forall id: nat | Known(s.b.role, id) && CarrierOf(s.carriers, id).setup.Some? ::
        Answered(s.a.accepts.ledger, s.a.accepts.serving, id);
  }

  lemma AdoptSafe(s: System, t: System)
    requires Live(s) && Invariant(s) && AdoptUpdate(s) == Some(t)
    ensures Safe(t)
  {
    hide Known, ValidId, Ordinal, NextId, FirstId, KeysOk, PlanOk, OpensOk, LockOk, AcceptsOk, FreezeOk, AckEpochsOk,
      StreamsOk, StreamIdsOk, Chain, UpdatesLabelled, ReaderOk, Lockstep, SetupsOk, ResolutionsOk, ResetsOk, FreshOk,
      UpdateCovered, SetupEpochsOk, AgreeOk, GuardsOk, ResettingOk, BoundariesOk, Announcing, Updates, Acks, Resets,
      ResetsBefore, Boundaries, Frontier;
    AdoptKeepsOwn(s, t);
    AdoptKeepsPeer(s, t);
  }

  // ----- Acknowledging --------------------------------------------------------------

  lemma WriteKeyAckKeeps(s: System, t: System)
    requires WriteKeyAck(s) == Some(t) && s.a.failure.None? && t.a.failure.None? && s.b.role == Other(s.a.role)
    requires KeysHold(s) && PlanHolds(s) && FreezeHolds(s)
    requires LockstepHolds(Swap(s)) && ReaderHolds(Swap(s)) && CoverHolds(Swap(s)) && PlanHolds(Swap(s))
    ensures KeysHold(t) && PlanHolds(t) && FreezeHolds(t)
    ensures LockstepHolds(Swap(t)) && ReaderHolds(Swap(t)) && CoverHolds(Swap(t))
  {
    hide OnSchedule, Derived, Updates, Acks, Known, Answered, ResetsBefore;
    HeldUpdate(s);
    var u := s.a.rekeys.peer.update;
    PostReads(WithRekeys(s, s.a.rekeys.(peer := Acknowledged)), KeyAck(u), t);
  }

  lemma WriteKeyAckSafe(s: System, t: System)
    requires Live(s) && Invariant(s) && WriteKeyAck(s) == Some(t)
    ensures Safe(t)
  {
    hide Known, ValidId, Ordinal, NextId, FirstId, KeysOk, PlanOk, OpensOk, LockOk, AcceptsOk, FreezeOk, AckEpochsOk,
      StreamsOk, StreamIdsOk, Chain, UpdatesLabelled, ReaderOk, Lockstep, SetupsOk, ResolutionsOk, ResetsOk, FreshOk,
      UpdateCovered, SetupEpochsOk, AgreeOk, GuardsOk, ResettingOk, BoundariesOk, Announcing, Updates, Acks, Resets,
      ResetsBefore, Boundaries, Frontier;
    var u := s.a.rekeys.peer.update;
    var r := WithRekeys(s, s.a.rekeys.(peer := Acknowledged));
    KeysIgnorePeer(s, r);
    PostLabels(r, KeyAck(u), t);
    if t.a.failure.None? {
      PostReads(r, KeyAck(u), t);
      WriteKeyAckKeeps(s, t);
    }
  }

  lemma KeysIgnorePeer(s: System, r: System)
    requires KeysHold(s) && r == WithRekeys(s, s.a.rekeys.(peer := Acknowledged))
    ensures KeysHold(r)
  {
  }

  lemma FinishPeerRekeyKeeps(s: System, t: System)
    requires NoteActivity(s) == Some(t) || FinishPeerRekey(s) == Some(t)
    requires KeysHold(s) && PlanHolds(s) && FreezeHolds(s)
    requires LockstepHolds(Swap(s)) && ReaderHolds(Swap(s)) && CoverHolds(Swap(s))
    ensures KeysHold(t) && PlanHolds(t) && FreezeHolds(t)
    ensures LockstepHolds(Swap(t)) && ReaderHolds(Swap(t)) && CoverHolds(Swap(t))
  {
    hide Derived, Updates, Acks, Known, Answered, ResetsBefore;
  }

  lemma FinishPeerRekeySafe(s: System, t: System)
    requires Live(s) && Invariant(s) && (NoteActivity(s) == Some(t) || FinishPeerRekey(s) == Some(t))
    ensures Safe(t)
  {
    hide Known, ValidId, Ordinal, NextId, FirstId, KeysOk, PlanOk, OpensOk, LockOk, AcceptsOk, FreezeOk, AckEpochsOk,
      StreamsOk, StreamIdsOk, Chain, UpdatesLabelled, ReaderOk, Lockstep, SetupsOk, ResolutionsOk, ResetsOk, FreshOk,
      UpdateCovered, SetupEpochsOk, AgreeOk, GuardsOk, ResettingOk, BoundariesOk, Announcing, Updates, Acks, Resets,
      ResetsBefore, Boundaries, Frontier;
    FinishPeerRekeyKeeps(s, t);
  }

  // ----- Streams --------------------------------------------------------------------

  lemma ReadStreamUpdateKeeps(s: System, id: nat, transition: nat, t: System)
    requires ReadStreamUpdate(s, id, transition) == Some(t) && KeysHold(s) && StreamsHold(s)
    ensures KeysHold(t) && StreamsHold(t) && t.a.streams.Keys == s.a.streams.Keys
  {
    hide OnSchedule, Derived;
    var st := s.a.streams[id];
    RecvOnSchedule(s);
    if st.recvEpoch in s.a.keys.recvRoots {
      ScheduleExtends(s.a.keys.recvRoots, SendDirection(Other(s.a.role)), st.recvEpoch);
    }
  }

  lemma ReadStreamAckKeeps(s: System, id: nat, t: System)
    requires ReadStreamAck(s, id) == Some(t) && StreamsHold(s) && PlanHolds(s)
    ensures StreamsHold(t) && t.a.streams.Keys == s.a.streams.Keys
  {
  }

  lemma FlagsKeep(s: System, id: nat, t: System)
    requires CloseWrite(s, id) == Some(t) || ReadStreamFin(s, id) == Some(t)
    requires StreamsHold(s)
    ensures StreamsHold(t) && t.a.streams.Keys == s.a.streams.Keys
  {
  }

  lemma DropHandleKeeps(s: System, id: nat, t: System)
    requires DropHandle(s, id) == Some(t) && StreamsHold(s)
    ensures StreamsHold(t) && t.a.streams.Keys == s.a.streams.Keys - {id}
  {
  }

  lemma FewerStreamIds(s: System, t: System)
    requires t == s.(a := s.a.(streams := t.a.streams)) && t.a.streams.Keys <= s.a.streams.Keys && StreamIdsHold(s)
    ensures StreamIdsHold(t)
  {
    hide Known, StateOf;
  }

  lemma StreamFrame(s: System, t: System)
    requires Live(s) && Invariant(s)
    requires t == s.(a := s.a.(keys := t.a.keys, streams := t.a.streams))
    requires t.a.keys == s.a.keys.(recvRoots := t.a.keys.recvRoots)
    requires KeysHold(t) && StreamsHold(t) && StreamIdsHold(t)
    ensures Safe(t)
  {
    hide Known, ValidId, Ordinal, NextId, FirstId, KeysOk, PlanOk, OpensOk, LockOk, AcceptsOk, FreezeOk, AckEpochsOk,
      StreamsOk, StreamIdsOk, Chain, UpdatesLabelled, ReaderOk, Lockstep, SetupsOk, ResolutionsOk, ResetsOk, FreshOk,
      UpdateCovered, SetupEpochsOk, AgreeOk, GuardsOk, ResettingOk, BoundariesOk, Announcing, Updates, Acks, Resets,
      ResetsBefore, Boundaries, Frontier;
  }

  // ----- Carriers -------------------------------------------------------------------

  lemma LostCarrierKeeps(s: System, id: nat, t: System)
    requires LoseCarrier(s, id) == Some(t)
    requires SetupsHold(s) && FreshHolds(s) && SetupEpochsHold(s) && AgreeHold(s)
    ensures SetupsHold(t) && FreshHolds(t) && SetupEpochsHold(t) && AgreeHold(t)
  {
    hide Ordinal, Known, ValidId, Resets, Answered;
    assert forall i: nat | i != id :: CarrierOf(t.carriers, i) == CarrierOf(s.carriers, i);
    assert CarrierOf(t.carriers, id) == IDLE_CARRIER;
  }

  lemma LoseCarrierSafe(s: System, id: nat, t: System)
    requires Live(s) && Invariant(s) && LoseCarrier(s, id) == Some(t)
    ensures Safe(t)
  {
    hide Known, ValidId, Ordinal, NextId, FirstId, KeysOk, PlanOk, OpensOk, LockOk, AcceptsOk, FreezeOk, AckEpochsOk,
      StreamsOk, StreamIdsOk, Chain, UpdatesLabelled, ReaderOk, Lockstep, SetupsOk, ResolutionsOk, ResetsOk, FreshOk,
      UpdateCovered, SetupEpochsOk, AgreeOk, GuardsOk, ResettingOk, BoundariesOk, Announcing, Updates, Acks, Resets,
      ResetsBefore, Boundaries, Frontier;
    LostCarrierKeeps(s, id, t);
    LostCarrierKeeps(Swap(s), id, Swap(t));
  }

  // ----- Together -------------------------------------------------------------------

  lemma StreamStepSafe(s: System, step: StreamStep, t: System)
    requires Live(s) && Invariant(s) && TakeStream(s, step) == Some(t)
    ensures Safe(t)
  {
    hide Known, ValidId, Ordinal, NextId, FirstId, KeysOk, PlanOk, OpensOk, LockOk, AcceptsOk, FreezeOk, AckEpochsOk,
      StreamsOk, StreamIdsOk, Chain, UpdatesLabelled, ReaderOk, Lockstep, SetupsOk, ResolutionsOk, ResetsOk, FreshOk,
      UpdateCovered, SetupEpochsOk, AgreeOk, GuardsOk, ResettingOk, BoundariesOk, Announcing, Updates, Acks, Resets,
      ResetsBefore, Boundaries, Frontier, Safe, ResetStream, WriteReset, LoseCarrier;
    match step
    case SResetStream(id) => ResetStreamSafe(s, id, t);
    case SWriteReset(id) => WriteResetSafe(s, id, t);
    case SLoseCarrier(id) => LoseCarrierSafe(s, id, t);
    case SReadStreamUpdate(id, transition) => ReadStreamUpdateKeeps(s, id, transition, t); StreamFrame(s, t);
    case SReadStreamAck(id) => ReadStreamAckKeeps(s, id, t); FewerStreamIds(s, t); StreamFrame(s, t);
    case SCloseWrite(id) => FlagsKeep(s, id, t); FewerStreamIds(s, t); StreamFrame(s, t);
    case SReadStreamFin(id) => FlagsKeep(s, id, t); FewerStreamIds(s, t); StreamFrame(s, t);
    case SDropHandle(id) => DropHandleKeeps(s, id, t); FewerStreamIds(s, t); StreamFrame(s, t);
  }

  lemma ControlStepSafe(s: System, step: ControlStep, t: System)
    requires Live(s) && Invariant(s) && TakeControl(s, step) == Some(t)
    ensures Safe(t)
  {
    hide Invariant, Safe, Live, ReadControl, CheckUpdate, AdoptUpdate, WriteKeyAck, NoteActivity, FinishPeerRekey;
    match step
    case SReadControl => ReadControlSafe(s, t);
    case SCheckUpdate => CheckUpdateSafe(s, t);
    case SAdoptUpdate => AdoptSafe(s, t);
    case SWriteKeyAck => WriteKeyAckSafe(s, t);
    case SNoteActivity => FinishPeerRekeySafe(s, t);
    case SFinishPeerRekey => FinishPeerRekeySafe(s, t);
  }
}
