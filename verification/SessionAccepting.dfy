/** The acceptor's steps keep the invariant. */
module SessionAccepting {
  import opened Basics
  import opened Ledgers
  import opened Session
  import opened SessionInvariant
  import opened SessionOpening

  /** The acceptor never takes back an answer, so what rests on answers stays true. */
  lemma AnswersGrow(u: System, v: System)
    requires v == u.(b := u.b.(accepts := v.b.accepts, streams := v.b.streams), carriers := v.carriers)
    requires forall id: nat | Answered(u.b.accepts.ledger, u.b.accepts.serving, id) ::
               Answered(v.b.accepts.ledger, v.b.accepts.serving, id)
    requires forall id: nat | Settled(u.b.accepts.ledger, id) :: Settled(v.b.accepts.ledger, id)
    requires ResolutionsHold(u) && CoverHolds(u) && ResetsHold(u)
    ensures ResolutionsHold(v) && CoverHolds(v) && ResetsHold(v)
  {
    hide Known, Answered, Settled, Updates, Resets, ResetsBefore;
  }

  // ----- Checking a preface ---------------------------------------------------------

  lemma ReadSetupKeepsOwn(s: System, t: System, id: nat)
    requires ReadSetup(s, id) == Some(t) && t.a.failure.None? && s.b.role == Other(s.a.role)
    requires AcceptsHold(s) && FreezeHolds(s) && AckEpochsHold(s) && SetupsHold(Swap(s))
    ensures AcceptsHold(t) && FreezeHolds(t) && AckEpochsHold(t)
    ensures forall i: nat | Answered(s.a.accepts.ledger, s.a.accepts.serving, i) ::
              Answered(t.a.accepts.ledger, t.a.accepts.serving, i)
  {
    hide Ordinal, NextId, FirstId, Frontier, RefusedByGoaway;
  }

  lemma ReadSetupKeepsStreams(s: System, t: System, id: nat)
    requires ReadSetup(s, id) == Some(t) && t.a.failure.None? && s.b.role == Other(s.a.role)
    requires StreamIdsHold(s) && SetupsHold(Swap(s))
    ensures StreamIdsHold(t)
  {
    hide Ordinal, NextId, FirstId, Frontier, RefusedByGoaway, Known;
    OneOpener(Other(s.a.role), id);
    OneOpener(s.a.role, id);
  }

  lemma ReadSetupKeepsPeer(s: System, t: System, id: nat)
    requires ReadSetup(s, id) == Some(t) && t.a.failure.None? && s.b.role == Other(s.a.role)
    requires SetupsHold(Swap(s)) && FreshHolds(Swap(s)) && SetupEpochsHold(Swap(s))
    ensures SetupsHold(Swap(t)) && FreshHolds(Swap(t)) && SetupEpochsHold(Swap(t))
  {
    CarriersAfterRead(s, t, id);
    hide Ordinal, NextId, FirstId, Frontier, Resets, ReadSetup;
  }

  lemma ReadSetupAgrees(s: System, t: System, id: nat)
    requires ReadSetup(s, id) == Some(t) && t.a.failure.None? && s.b.role == Other(s.a.role)
    requires SetupsHold(Swap(s)) && AgreeHold(Swap(s))
    ensures AgreeHold(Swap(t))
  {
    CarriersAfterRead(s, t, id);
    hide Ordinal, NextId, FirstId, Frontier, ReadSetup;
  }

  lemma CarriersAfterRead(s: System, t: System, id: nat)
    requires ReadSetup(s, id) == Some(t) && t.a.failure.None?
    ensures t == s.(a := s.a.(accepts := t.a.accepts), carriers := t.carriers)
    ensures ValidId(Other(s.a.role), id) && CarrierOf(s.carriers, id).setup.Some?
    ensures var c, d := s.a.accepts, t.a.accepts;
            && (d == c.(idle := d.idle, serving := d.serving))
            && (|| d.serving == c.serving
                || d.serving == c.serving[id := Checked(CarrierOf(s.carriers, id).setup.value, s.a.goaways.sent)])
    ensures t.carriers == s.carriers[id := CarrierOf(t.carriers, id)]
    ensures CarrierOf(t.carriers, id) == CarrierOf(s.carriers, id).(setup := None)
    ensures forall i: nat | i != id :: CarrierOf(t.carriers, i) == CarrierOf(s.carriers, i)
  {
    hide ValidId, RefusedByGoaway;
  }

  // ----- Marking its ID -------------------------------------------------------------

  /** An honest preface is never refused by the ledger. */
  lemma SetupNeverRefused(s: System, t: System, id: nat)
    requires MarkSetup(s, id) == Some(t) && s.a.failure.None? && AcceptsHold(s)
    ensures t.a.failure.None?
  {
    hide Ordinal, NextId, FirstId, Frontier;
  }

  lemma MarkSetupTouches(s: System, t: System, id: nat)
    requires MarkSetup(s, id) == Some(t) && t.a.failure.None? && AcceptsHold(s)
    ensures t == s.(a := s.a.(accepts := t.a.accepts))
    ensures id in s.a.accepts.serving && s.a.accepts.serving[id].Checked?
    ensures var c, d := s.a.accepts, t.a.accepts;
            if StateOf(c.ledger, id) == AbandonedNoFss2
            then d == c.(ledger := Put(c.ledger, id, UsedOrTerminal), serving := c.serving - {id})
            else StateOf(c.ledger, id) == Unseen
                 && d == c.(ledger := Put(c.ledger, id, OpenSeen),
                            serving := c.serving[id := SetupSeen(c.serving[id].epoch)])
  {
    hide Known, StateOf, Put;
  }

  lemma MarkSetupKeepsResponders(s: System, t: System, id: nat)
    requires MarkSetup(s, id) == Some(t) && t.a.failure.None?
    requires AcceptsHold(s) && FreezeHolds(s) && AckEpochsHold(s)
    ensures FreezeHolds(t) && AckEpochsHold(t)
  {
    MarkSetupTouches(s, t, id);
    hide MarkSetup, StateOf, Known;
  }

  lemma MarkSetupKeepsLedger(s: System, t: System, id: nat)
    requires MarkSetup(s, id) == Some(t) && t.a.failure.None?
    requires AcceptsHold(s)
    ensures AcceptsHold(t)
  {
    MarkSetupTouches(s, t, id);
    hide Ordinal, NextId, FirstId, Frontier, ValidId, Known, MarkSetup;
    PutReads(s.a.accepts.ledger, id, OpenSeen);
    PutReads(s.a.accepts.ledger, id, UsedOrTerminal);
    hide Put;
  }

  lemma MarkSetupKeepsStreams(s: System, t: System, id: nat)
    requires MarkSetup(s, id) == Some(t) && t.a.failure.None? && AcceptsHold(s) && StreamIdsHold(s)
    ensures StreamIdsHold(t)
  {
    MarkSetupTouches(s, t, id);
    hide Ordinal, NextId, FirstId, Frontier, ValidId, Known, MarkSetup;
    PutReads(s.a.accepts.ledger, id, OpenSeen);
    PutReads(s.a.accepts.ledger, id, UsedOrTerminal);
    hide Put;
  }

  lemma MarkSetupGrows(s: System, t: System, id: nat)
    requires MarkSetup(s, id) == Some(t) && t.a.failure.None? && AcceptsHold(s)
    ensures forall i: nat | Answered(s.a.accepts.ledger, s.a.accepts.serving, i) ::
              Answered(t.a.accepts.ledger, t.a.accepts.serving, i)
    ensures forall i: nat | Settled(s.a.accepts.ledger, i) :: Settled(t.a.accepts.ledger, i)
  {
    MarkSetupTouches(s, t, id);
    hide Ordinal, NextId, FirstId, Frontier, Known, MarkSetup;
    PutReads(s.a.accepts.ledger, id, OpenSeen);
    PutReads(s.a.accepts.ledger, id, UsedOrTerminal);
    hide Put;
  }

  lemma MarkSetupKeepsPeer(s: System, t: System, id: nat)
    requires MarkSetup(s, id) == Some(t) && t.a.failure.None? && s.b.role == Other(s.a.role)
    requires AcceptsHold(s) && SetupsHold(Swap(s)) && FreshHolds(Swap(s)) && SetupEpochsHold(Swap(s))
    ensures SetupsHold(Swap(t)) && FreshHolds(Swap(t)) && SetupEpochsHold(Swap(t))
  {
    MarkSetupTouches(s, t, id);
    MarkSetupGrows(s, t, id);
    hide Ordinal, NextId, FirstId, Frontier, Resets, ValidId, Known, MarkSetup;
    PutReads(s.a.accepts.ledger, id, OpenSeen);
    PutReads(s.a.accepts.ledger, id, UsedOrTerminal);
    hide Put;
  }

  lemma MarkSetupAgrees(s: System, t: System, id: nat)
    requires MarkSetup(s, id) == Some(t) && t.a.failure.None? && s.b.role == Other(s.a.role)
    requires AcceptsHold(s) && AgreeHold(Swap(s))
    ensures AgreeHold(Swap(t))
  {
    MarkSetupTouches(s, t, id);
    hide Ordinal, NextId, FirstId, Frontier, ValidId, Known, MarkSetup;
    PutReads(s.a.accepts.ledger, id, OpenSeen);
    PutReads(s.a.accepts.ledger, id, UsedOrTerminal);
    hide Put;
  }

  // ----- Serving --------------------------------------------------------------------

  lemma WriteOpenAckKeeps(s: System, t: System, id: nat)
    requires WriteOpenAck(s, id) == Some(t) && s.b.role == Other(s.a.role)
    requires AcceptsHold(s) && FreezeHolds(s) && AckEpochsHold(s) && StreamIdsHold(s)
    ensures AcceptsHold(t) && FreezeHolds(t) && AckEpochsHold(t) && StreamIdsHold(t)
    ensures forall i: nat | Answered(s.a.accepts.ledger, s.a.accepts.serving, i) ::
              Answered(t.a.accepts.ledger, t.a.accepts.serving, i)
  {
    hide Ordinal, NextId, FirstId, Frontier, Known, ValidId, CarrierOf;
  }

  lemma WriteOpenAckKeepsPeer(s: System, t: System, id: nat)
    requires WriteOpenAck(s, id) == Some(t) && s.b.role == Other(s.a.role)
    requires AcceptsHold(s) && SetupsHold(Swap(s)) && FreshHolds(Swap(s)) && SetupEpochsHold(Swap(s))
    ensures SetupsHold(Swap(t)) && FreshHolds(Swap(t)) && SetupEpochsHold(Swap(t))
  {
    hide Ordinal, NextId, FirstId, Frontier, Known, ValidId, Resets;
    CarriersAfterAck(s, t, id);
  }

  lemma WriteOpenAckAgrees(s: System, t: System, id: nat)
    requires WriteOpenAck(s, id) == Some(t) && s.b.role == Other(s.a.role)
    requires AcceptsHold(s) && AgreeHold(Swap(s))
    ensures AgreeHold(Swap(t))
  {
    hide Ordinal, NextId, FirstId, Frontier, Known, ValidId;
    CarriersAfterAck(s, t, id);
  }

  lemma CarriersAfterAck(s: System, t: System, id: nat)
    requires WriteOpenAck(s, id) == Some(t)
    ensures t.carriers == s.carriers[id := CarrierOf(t.carriers, id)]
    ensures CarrierOf(t.carriers, id)
            == CarrierOf(s.carriers, id).(openRecord := false, openAck := Some(s.a.keys.sendEpoch))
    ensures forall i: nat | i != id :: CarrierOf(t.carriers, i) == CarrierOf(s.carriers, i)
  {}

  lemma RegisterAcceptedKeeps(s: System, t: System, id: nat)
    requires RegisterAccepted(s, id) == Some(t) && s.b.role == Other(s.a.role)
    requires OpensHold(s) && AcceptsHold(s) && FreezeHolds(s) && AckEpochsHold(s) && StreamIdsHold(s)
    ensures AcceptsHold(t) && FreezeHolds(t) && AckEpochsHold(t) && StreamIdsHold(t)
    ensures forall i: nat | Answered(s.a.accepts.ledger, s.a.accepts.serving, i) ::
              Answered(t.a.accepts.ledger, t.a.accepts.serving, i)
  {
    hide Ordinal, NextId, FirstId, Frontier, Known, ValidId;
    OneOpener(Other(s.a.role), id);
  }

  lemma RegisterAcceptedStreams(s: System, t: System, id: nat)
    requires RegisterAccepted(s, id) == Some(t)
    requires FreezeHolds(s) && AckEpochsHold(s) && StreamIdsHold(s) && StreamsHold(s)
    ensures StreamsHold(t)
  {
    hide Known;
    assert id !in s.a.streams;
    assert id !in Planned(s.a.rekeys.local);
  }

  lemma RegisterAcceptedKeepsPeer(s: System, t: System, id: nat)
    requires RegisterAccepted(s, id) == Some(t) && s.b.role == Other(s.a.role)
    requires SetupsHold(Swap(s)) && FreshHolds(Swap(s)) && AgreeHold(Swap(s))
    ensures SetupsHold(Swap(t)) && FreshHolds(Swap(t)) && AgreeHold(Swap(t))
  {
    hide Ordinal, NextId, FirstId, Frontier, Known, ValidId, Resets;
  }

  lemma MarkAcceptedKeepsOwn(s: System, t: System, id: nat)
    requires MarkAccepted(s, id) == Some(t) && s.b.role == Other(s.a.role)
    requires AcceptsHold(s) && FreezeHolds(s) && AckEpochsHold(s) && StreamIdsHold(s)
    ensures t.a.failure == s.a.failure
    ensures AcceptsHold(t) && FreezeHolds(t) && AckEpochsHold(t) && StreamIdsHold(t)
    ensures forall i: nat | Answered(s.a.accepts.ledger, s.a.accepts.serving, i) ::
              Answered(t.a.accepts.ledger, t.a.accepts.serving, i)
    ensures forall i: nat | Settled(s.a.accepts.ledger, i) :: Settled(t.a.accepts.ledger, i)
  {
    hide Ordinal, NextId, FirstId, Frontier, ValidId;
    PutReads(s.a.accepts.ledger, id, UsedOrTerminal);
  }

  lemma MarkAcceptedKeepsPeer(s: System, t: System, id: nat)
    requires MarkAccepted(s, id) == Some(t) && t.a.failure == s.a.failure && s.b.role == Other(s.a.role)
    requires AcceptsHold(s) && SetupsHold(Swap(s)) && FreshHolds(Swap(s)) && SetupEpochsHold(Swap(s))
    requires forall i: nat | Answered(s.a.accepts.ledger, s.a.accepts.serving, i) ::
               Answered(t.a.accepts.ledger, t.a.accepts.serving, i)
    ensures SetupsHold(Swap(t)) && FreshHolds(Swap(t)) && SetupEpochsHold(Swap(t))
  {
    hide Ordinal, NextId, FirstId, Frontier, ValidId, Known, Resets;
    PutReads(s.a.accepts.ledger, id, UsedOrTerminal);
  }

  lemma MarkAcceptedAgrees(s: System, t: System, id: nat)
    requires MarkAccepted(s, id) == Some(t) && s.a.failure.None? && t.a.failure.None? && s.b.role == Other(s.a.role)
    requires AcceptsHold(s) && AgreeHold(Swap(s))
    ensures AgreeHold(Swap(t))
  {
    hide Ordinal, NextId, FirstId, Frontier, ValidId, Known;
    PutReads(s.a.accepts.ledger, id, UsedOrTerminal);
  }

  lemma LeaveKeeps(s: System, t: System, id: nat)
    requires LeaveResponder(s, id) == Some(t) && s.b.role == Other(s.a.role)
    requires AcceptsHold(s) && FreezeHolds(s) && AckEpochsHold(s) && StreamIdsHold(s)
    requires SetupsHold(Swap(s)) && FreshHolds(Swap(s)) && AgreeHold(Swap(s))
    ensures AcceptsHold(t) && FreezeHolds(t) && AckEpochsHold(t) && StreamIdsHold(t)
    ensures SetupsHold(Swap(t)) && FreshHolds(Swap(t)) && AgreeHold(Swap(t))
    ensures forall i: nat | Answered(s.a.accepts.ledger, s.a.accepts.serving, i) ::
              Answered(t.a.accepts.ledger, t.a.accepts.serving, i)
  {
    hide Ordinal, NextId, FirstId, Frontier, ValidId, Known, Resets;
  }

  lemma CountingKeeps(s: System, step: AcceptorStep, t: System)
    requires step.SEnterResponder? || step.SGiveUpResponder?
    requires TakeAcceptor(s, step) == Some(t) && FreezeHolds(s) && GuardsHold(s)
    ensures FreezeHolds(t)
  {
  }

  // ----- Together -------------------------------------------------------------------

  lemma AcceptFrame(s: System, t: System)
    requires Live(s) && Invariant(s)
    requires t == s.(a := s.a.(accepts := t.a.accepts, streams := t.a.streams), carriers := t.carriers)
    requires forall i: nat | Settled(s.a.accepts.ledger, i) :: Settled(t.a.accepts.ledger, i)
    requires AcceptsHold(t) && FreezeHolds(t) && AckEpochsHold(t) && StreamIdsHold(t) && StreamsHold(t)
    requires SetupsHold(t) && FreshHolds(t) && SetupEpochsHold(t) && AgreeHold(t)
    requires SetupsHold(Swap(t)) && FreshHolds(Swap(t)) && SetupEpochsHold(Swap(t)) && AgreeHold(Swap(t))
    requires ResolutionsHold(Swap(t)) && CoverHolds(Swap(t)) && ResetsHold(Swap(t))
    ensures Safe(t)
  {
    hide Known, ValidId, Ordinal, NextId, FirstId, KeysOk, PlanOk, OpensOk, LockOk, AcceptsOk, FreezeOk, AckEpochsOk,
      StreamsOk, StreamIdsOk, Chain, UpdatesLabelled, ReaderOk, Lockstep, SetupsOk, ResolutionsOk, ResetsOk, FreshOk,
      UpdateCovered, SetupEpochsOk, AgreeOk, GuardsOk, ResettingOk, BoundariesOk, Announcing, Updates, Acks, Resets,
      ResetsBefore, Boundaries, Frontier, Settled;
    ResettingSettles(s, t);
  }

  /** A responder's step leaves the carriers of this side's own streams alone. */
  lemma OwnDirection(s: System, t: System, id: nat)
    requires s.b.role == Other(s.a.role) && OpensHold(s) && ValidId(s.b.role, id)
    requires t == s.(a := s.a.(accepts := t.a.accepts), carriers := s.carriers[id := CarrierOf(t.carriers, id)])
    requires SetupsHold(s) && FreshHolds(s) && SetupEpochsHold(s) && AgreeHold(s)
    ensures SetupsHold(t) && FreshHolds(t) && SetupEpochsHold(t) && AgreeHold(t)
  {
    hide Known, ValidId, Ordinal, NextId, FirstId, OpensOk, SetupsOk, FreshOk, SetupEpochsOk, AgreeOk, Resets;
    OpeningKnown(s);
    OneOpener(s.b.role, id);
    OtherCarrier(s.a.role, id, CarrierOf(t.carriers, id), s.a.opens.highWatermark, s.b.accepts.ledger,
                 s.b.accepts.serving, s.carriers, s.a.opens.opening, Resets(s.ab), s.b.keys.recvEpoch,
                 s.b.accepts.fixed);
  }

  lemma ReadSetupSafe(s: System, t: System, id: nat)
    requires Live(s) && Invariant(s) && ReadSetup(s, id) == Some(t)
    ensures Safe(t)
  {
    hide Known, ValidId, Ordinal, NextId, FirstId, KeysOk, PlanOk, OpensOk, LockOk, AcceptsOk, FreezeOk, AckEpochsOk,
      StreamsOk, StreamIdsOk, Chain, UpdatesLabelled, ReaderOk, Lockstep, SetupsOk, ResolutionsOk, ResetsOk, FreshOk,
      UpdateCovered, SetupEpochsOk, AgreeOk, GuardsOk, ResettingOk, BoundariesOk, Announcing, Updates, Acks, Resets,
      ResetsBefore, Boundaries, Frontier, RefusedByGoaway;
    if t.a.failure.None? {
      hide Safe;
      CarriersAfterRead(s, t, id);
      ReadSetupKeepsOwn(s, t, id);
      ReadSetupKeepsStreams(s, t, id);
      ReadSetupKeepsPeer(s, t, id);
      ReadSetupAgrees(s, t, id);
      OwnDirection(s, t, id);
      AnswersGrow(Swap(s), Swap(t));
      AcceptFrame(s, t);
    }
  }

  lemma MarkSetupSafe(s: System, t: System, id: nat)
    requires Live(s) && Invariant(s) && MarkSetup(s, id) == Some(t)
    ensures Safe(t)
  {
    hide Known, ValidId, Ordinal, NextId, FirstId, KeysOk, PlanOk, OpensOk, LockOk, AcceptsOk, FreezeOk, AckEpochsOk,
      StreamsOk, StreamIdsOk, Chain, UpdatesLabelled, ReaderOk, Lockstep, SetupsOk, ResolutionsOk, ResetsOk, FreshOk,
      UpdateCovered, SetupEpochsOk, AgreeOk, GuardsOk, ResettingOk, BoundariesOk, Announcing, Updates, Acks, Resets,
      ResetsBefore, Boundaries, Frontier, Safe, MarkSetup;
    SetupNeverRefused(s, t, id);
    MarkSetupTouches(s, t, id);
    MarkSetupKeepsResponders(s, t, id);
    MarkSetupKeepsLedger(s, t, id);
    MarkSetupKeepsStreams(s, t, id);
    MarkSetupGrows(s, t, id);
    MarkSetupKeepsPeer(s, t, id);
    MarkSetupAgrees(s, t, id);
    AnswersGrow(Swap(s), Swap(t));
    AcceptFrame(s, t);
  }

  lemma WriteOpenAckSafe(s: System, t: System, id: nat)
    requires Live(s) && Invariant(s) && WriteOpenAck(s, id) == Some(t)
    ensures Safe(t)
  {
    hide Known, ValidId, Ordinal, NextId, FirstId, KeysOk, PlanOk, OpensOk, LockOk, AcceptsOk, FreezeOk, AckEpochsOk,
      StreamsOk, StreamIdsOk, Chain, UpdatesLabelled, ReaderOk, Lockstep, SetupsOk, ResolutionsOk, ResetsOk, FreshOk,
      UpdateCovered, SetupEpochsOk, AgreeOk, GuardsOk, ResettingOk, BoundariesOk, Announcing, Updates, Acks, Resets,
      ResetsBefore, Boundaries, Frontier, Safe;
    CarriersAfterAck(s, t, id);
    WriteOpenAckKeeps(s, t, id);
    WriteOpenAckKeepsPeer(s, t, id);
    WriteOpenAckAgrees(s, t, id);
    ServingKnown(s, id);
    OneOpener(s.b.role, id);
    OwnDirection(s, t, id);
    AnswersGrow(Swap(s), Swap(t));
    AcceptFrame(s, t);
  }

  lemma AcceptorSafe(s: System, step: AcceptorStep, t: System)
    requires Live(s) && Invariant(s) && TakeAcceptor(s, step) == Some(t)
    ensures Safe(t)
  {
    hide Known, ValidId, Ordinal, NextId, FirstId, KeysOk, PlanOk, OpensOk, LockOk, AcceptsOk, FreezeOk, AckEpochsOk,
      StreamsOk, StreamIdsOk, Chain, UpdatesLabelled, ReaderOk, Lockstep, SetupsOk, ResolutionsOk, ResetsOk, FreshOk,
      UpdateCovered, SetupEpochsOk, AgreeOk, GuardsOk, ResettingOk, BoundariesOk, Announcing, Updates, Acks, Resets,
      ResetsBefore, Boundaries, Frontier, Safe, ReadSetup, MarkSetup, WriteOpenAck;
    match step
    case SEnterResponder => CountingKeeps(s, step, t); AcceptFrame(s, t);
    case SGiveUpResponder => CountingKeeps(s, step, t); AcceptFrame(s, t);
    case SReadSetup(id) => ReadSetupSafe(s, t, id);
    case SMarkSetup(id) => MarkSetupSafe(s, t, id);
    case SWriteOpenAck(id) => WriteOpenAckSafe(s, t, id);
    case SRegisterAccepted(id) =>
      RegisterAcceptedKeeps(s, t, id);
      RegisterAcceptedStreams(s, t, id);
      RegisterAcceptedKeepsPeer(s, t, id);
      AnswersGrow(Swap(s), Swap(t));
      AcceptFrame(s, t);
    case SMarkAccepted(id) =>
      MarkAcceptedKeepsOwn(s, t, id);
      MarkAcceptedKeepsPeer(s, t, id);
      MarkAcceptedAgrees(s, t, id);
      AnswersGrow(Swap(s), Swap(t));
      AcceptFrame(s, t);
    case SLeaveResponder(id) =>
      LeaveKeeps(s, t, id);
      AnswersGrow(Swap(s), Swap(t));
      AcceptFrame(s, t);
  }

  lemma ServingKnown(s: System, id: nat)
    requires AcceptsHold(s) && id in s.a.accepts.serving
    ensures Known(Other(s.a.role), id)
  {
  }
}
