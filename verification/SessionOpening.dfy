/** The opener's steps keep the invariant. */
module SessionOpening {
  import opened Basics
  import opened Ledgers
  import opened Session
  import opened SessionInvariant

  // ----- Allocating an ID -----------------------------------------------------------

  lemma AllocateKeepsOwn(s: System, t: System)
    requires BeginOpen(s) == Some(t) && MarkFss2(s.a.opens.outbound, s.a.opens.nextId).Marked?
    requires OpensHold(s) && LockHolds(s) && StreamIdsHold(s) && PlanHolds(s) && ResettingHolds(s)
    ensures OpensHold(t) && LockHolds(t) && StreamIdsHold(t) && PlanHolds(t) && ResettingHolds(t)
  {
    OneOpener(s.a.role, s.a.opens.nextId);
    PutReads(s.a.opens.outbound, s.a.opens.nextId, OpenSeen);
  }

  lemma AllocateKeepsPeer(s: System, t: System)
    requires BeginOpen(s) == Some(t) && MarkFss2(s.a.opens.outbound, s.a.opens.nextId).Marked?
    requires OpensHold(s) && LockstepHolds(s)
    requires SetupsHold(s) && ResolutionsHold(s) && ResetsHold(s) && CoverHolds(s) && BoundariesHold(s) && AgreeHold(s)
    ensures SetupsHold(t) && ResolutionsHold(t) && ResetsHold(t) && CoverHolds(t) && BoundariesHold(t) && FreshHolds(t)
    ensures AgreeHold(t)
  {
    hide Announcing, Ordinal, NextId, FirstId, Frontier, Updates, Acks, Resets, ResetsBefore, Boundaries;
  }

  // ----- Writing the preface --------------------------------------------------------

  lemma OtherCarrier(opener: Role, id: nat, carrier: Carrier, high: nat, ledger: Ledger,
                     serving: map<nat, Responder>, carriers: map<nat, Carrier>, opening: Option<Opening>,
                     resets: set<nat>, recvEpoch: nat, fixed: map<nat, Fixed>)
    requires !ValidId(opener, id)
    requires SetupsOk(opener, high, ledger, serving, carriers)
    requires opening.Some? ==> Known(opener, opening.value.id)
    requires FreshOk(opening, ledger, serving, carriers, resets)
    requires SetupEpochsOk(opener, ledger, recvEpoch, carriers)
    requires AgreeOk(opener, opening, ledger, serving, fixed, carriers)
    ensures AgreeOk(opener, opening, ledger, serving, fixed, carriers[id := carrier])
    ensures SetupsOk(opener, high, ledger, serving, carriers[id := carrier])
    ensures FreshOk(opening, ledger, serving, carriers[id := carrier], resets)
    ensures SetupEpochsOk(opener, ledger, recvEpoch, carriers[id := carrier])
  {
    hide Ordinal, NextId, FirstId, Frontier;
    assert forall i: nat | i != id :: CarrierOf(carriers[id := carrier], i) == CarrierOf(carriers, i);
  }

  // ----- Checking, taking epochs ----------------------------------------------------

  lemma ClearanceKeeps(s: System, t: System)
    requires CheckOpen(s) == Some(t) || TakeEpochs(s) == Some(t)
    requires OpensHold(s) && LockHolds(s) && StreamIdsHold(s) && FreshHolds(s) && AgreeHold(s)
    ensures OpensHold(t) && LockHolds(t) && StreamIdsHold(t) && FreshHolds(t) && AgreeHold(t)
  {
    hide Known, Settled, OpenAllowed, Resets, CarrierOf, StateOf;
  }

  lemma WriteSetupKeepsOwn(s: System, t: System)
    requires WriteSetup(s) == Some(t)
    requires OpensHold(s) && LockHolds(s) && StreamIdsHold(s)
    ensures OpensHold(t) && LockHolds(t) && StreamIdsHold(t)
  {
    hide Known, Settled;
  }

  lemma WriteSetupKeepsPeer(s: System, t: System)
    requires WriteSetup(s) == Some(t)
    requires OpensHold(s) && LockHolds(s) && LockstepHolds(s)
    requires SetupsHold(s) && FreshHolds(s) && SetupEpochsHold(s)
    ensures SetupsHold(t) && FreshHolds(t) && SetupEpochsHold(t)
  {
    hide Ordinal, NextId, FirstId, Frontier, Updates, Acks, Resets;
    var id := s.a.opens.opening.value.id;
    OneOpener(s.a.role, id);
    assert forall i: nat | i != id :: CarrierOf(t.carriers, i) == CarrierOf(s.carriers, i);
  }

  lemma WriteSetupAgrees(s: System, t: System)
    requires WriteSetup(s) == Some(t) && FreshHolds(s) && AgreeHold(s)
    ensures AgreeHold(t)
  {
    hide Known, Resets;
    var id := s.a.opens.opening.value.id;
    assert forall i: nat | i != id :: CarrierOf(t.carriers, i) == CarrierOf(s.carriers, i);
  }

  // ----- Writing OPEN, reading OPEN_ACK ---------------------------------------------

  lemma WriteOpenKeeps(s: System, t: System)
    requires WriteOpen(s) == Some(t)
    requires OpensHold(s) && LockHolds(s) && StreamIdsHold(s)
    requires SetupsHold(s) && FreshHolds(s) && SetupEpochsHold(s) && AgreeHold(s)
    ensures OpensHold(t) && LockHolds(t) && StreamIdsHold(t)
    ensures SetupsHold(t) && FreshHolds(t) && SetupEpochsHold(t) && AgreeHold(t)
  {
    hide Known, ValidId, Ordinal, NextId, FirstId, Frontier, Settled, Resets;
    assert forall i: nat :: CarrierOf(t.carriers, i).setup == CarrierOf(s.carriers, i).setup
                            && CarrierOf(t.carriers, i).openAck == CarrierOf(s.carriers, i).openAck;
  }

  lemma ResolveKeepsOwn(s: System, t: System)
    requires ReadOpenAck(s) == Some(t)
    requires OpensHold(s) && LockHolds(s) && StreamIdsHold(s)
    ensures t.a.failure == s.a.failure
    ensures OpensHold(t) && LockHolds(t) && StreamIdsHold(t)
  {
    hide Ordinal, NextId, FirstId, Frontier;
    PutReads(s.a.opens.outbound, s.a.opens.opening.value.id, UsedOrTerminal);
  }

  lemma ResolveTouches(s: System, t: System)
    requires ReadOpenAck(s) == Some(t) && t.a.failure == s.a.failure && OpensHold(s)
    ensures s.a.opens.opening.Some? && t.a.opens.opening.Some? && t.a.opens.opening.value.stage.Resolved?
    ensures var id := s.a.opens.opening.value.id;
            && Known(s.a.role, id) && CarrierOf(s.carriers, id).openAck.Some?
            && t == s.(a := s.a.(opens := t.a.opens), carriers := t.carriers)
            && t.a.opens == s.a.opens.(outbound := t.a.opens.outbound, opening := t.a.opens.opening)
            && t.carriers == s.carriers[id := CarrierOf(s.carriers, id).(openAck := None)]
            && forall i: nat | i != id :: StateOf(t.a.opens.outbound, i) == StateOf(s.a.opens.outbound, i)
  {
    hide Ordinal, ValidId, NextId, FirstId, Frontier;
  }

  lemma ResolveKeepsPeer(s: System, t: System)
    requires ReadOpenAck(s) == Some(t) && t.a.failure == s.a.failure && OpensHold(s)
    requires SetupsHold(s) && ResolutionsHold(s) && FreshHolds(s) && SetupEpochsHold(s)
    ensures SetupsHold(t) && ResolutionsHold(t) && FreshHolds(t) && SetupEpochsHold(t)
  {
    ResolveTouches(s, t);
    hide Ordinal, ValidId, NextId, FirstId, Frontier, Resets, ReadOpenAck, OpensOk, StateOf;
    var id := s.a.opens.opening.value.id;
    assert Answered(s.b.accepts.ledger, s.b.accepts.serving, id);
    assert forall i: nat :: CarrierOf(t.carriers, i).setup == CarrierOf(s.carriers, i).setup
                            && (CarrierOf(t.carriers, i).openAck.Some? ==> CarrierOf(s.carriers, i).openAck.Some?);
  }

  /** The epoch that OPEN_ACK carried is the one its acceptor fixed. */
  lemma ResolveAgrees(s: System, t: System)
    requires ReadOpenAck(s) == Some(t) && s.a.failure.None? && t.a.failure.None? && OpensHold(s) && AgreeHold(s)
    ensures AgreeHold(t)
  {
    hide Known, Settled, MarkTerminal;
    var id := s.a.opens.opening.value.id;
    assert forall i: nat | i != id :: CarrierOf(t.carriers, i) == CarrierOf(s.carriers, i);
    assert CarrierOf(t.carriers, id) == CarrierOf(s.carriers, id).(openAck := None);
  }

  lemma RegisterOpenedKeeps(s: System, t: System)
    requires RegisterOpened(s) == Some(t)
    requires OpensHold(s) && LockHolds(s) && StreamIdsHold(s) && StreamsHold(s) && AgreeHold(s) && AcceptsHold(s)
    ensures OpensHold(t) && LockHolds(t) && StreamIdsHold(t) && StreamsHold(t) && FreshHolds(t) && AgreeHold(t)
  {
    hide Settled, Ordinal, NextId, FirstId, Frontier, CarrierOf;
    OneOpener(s.a.role, s.a.opens.opening.value.id);
  }

  // ----- Abandoning -----------------------------------------------------------------

  lemma AbandonKeeps(s: System, t: System)
    requires Abandon(s) == Some(t)
    requires OpensHold(s) && LockHolds(s) && StreamIdsHold(s) && ResolutionsHold(s) && AgreeHold(s)
    ensures OpensHold(t) && LockHolds(t) && StreamIdsHold(t) && ResolutionsHold(t) && FreshHolds(t) && AgreeHold(t)
  {
    hide Known, Settled, Resets;
  }

  lemma CommitAbandonKeeps(s: System, t: System, id: nat)
    requires CommitAbandon(s, id) == Some(t)
    requires OpensHold(s) && LockHolds(s) && ResolutionsHold(s)
    ensures t.a.failure == s.a.failure
    ensures OpensHold(t) && LockHolds(t) && ResolutionsHold(t)
  {
    hide Ordinal, ValidId, NextId, FirstId, Frontier, Resets;
    PutReads(s.a.opens.outbound, id, UsedOrTerminal);
  }

  // ----- Together -------------------------------------------------------------------

  lemma AllocateSafe(s: System, t: System)
    requires Live(s) && Invariant(s)
    requires BeginOpen(s) == Some(t) && MarkFss2(s.a.opens.outbound, s.a.opens.nextId).Marked?
    ensures Safe(t)
  {
    hide Known, ValidId, Ordinal, NextId, FirstId, KeysOk, PlanOk, OpensOk, LockOk, AcceptsOk, FreezeOk, AckEpochsOk,
      StreamsOk, StreamIdsOk, Chain, UpdatesLabelled, ReaderOk, Lockstep, SetupsOk, ResolutionsOk, ResetsOk, FreshOk,
      UpdateCovered, SetupEpochsOk, AgreeOk, GuardsOk, ResettingOk, BoundariesOk, Announcing, Updates, Acks, Resets,
      ResetsBefore, Boundaries, Frontier;
    AllocateKeepsOwn(s, t);
    AllocateKeepsPeer(s, t);
  }

  lemma ResettingStays(s: System, t: System)
    requires t.a.role == s.a.role && t.a.resetting == s.a.resetting && t.a.accepts == s.a.accepts
    requires t.a.opens.highWatermark == s.a.opens.highWatermark
    requires t.a.opens.opening.Some? ==>
               s.a.opens.opening.Some? && t.a.opens.opening.value.id == s.a.opens.opening.value.id
    requires ResettingHolds(s)
    ensures ResettingHolds(t)
  {
    hide Known, Settled;
  }

  lemma OpenFrame(s: System, t: System)
    requires Live(s) && Invariant(s)
    requires t.a.opens.opening.Some? ==>
               s.a.opens.opening.Some? && t.a.opens.opening.value.id == s.a.opens.opening.value.id
    requires t == s.(a := s.a.(opens := t.a.opens, streams := t.a.streams), carriers := t.carriers)
    requires t.a.opens.highWatermark == s.a.opens.highWatermark
    requires OpensHold(t) && LockHolds(t) && StreamIdsHold(t) && StreamsHold(t)
    requires SetupsHold(t) && ResolutionsHold(t) && FreshHolds(t) && SetupEpochsHold(t) && AgreeHold(t)
    requires SetupsHold(Swap(t)) && FreshHolds(Swap(t)) && SetupEpochsHold(Swap(t)) && AgreeHold(Swap(t))
    ensures Safe(t)
  {
    hide Known, ValidId, Ordinal, NextId, FirstId, KeysOk, PlanOk, OpensOk, LockOk, AcceptsOk, FreezeOk, AckEpochsOk,
      StreamsOk, StreamIdsOk, Chain, UpdatesLabelled, ReaderOk, Lockstep, SetupsOk, ResolutionsOk, ResetsOk, FreshOk,
      UpdateCovered, SetupEpochsOk, AgreeOk, GuardsOk, ResettingOk, BoundariesOk, Announcing, Updates, Acks, Resets,
      ResetsBefore, Boundaries, Frontier;
    ResettingStays(s, t);
  }

  /** An opener's step leaves the other direction's carriers alone. */
  lemma OtherDirection(s: System, t: System, id: nat)
    requires s.b.role == Other(s.a.role) && OpensHold(s) && OpensHold(Swap(s))
    requires s.a.opens.opening.Some? && id == s.a.opens.opening.value.id
    requires t == s.(a := s.a.(opens := t.a.opens, streams := t.a.streams), carriers := t.carriers)
    requires t.carriers == s.carriers || t.carriers == s.carriers[id := CarrierOf(t.carriers, id)]
    requires SetupsHold(Swap(s)) && FreshHolds(Swap(s)) && SetupEpochsHold(Swap(s)) && AgreeHold(Swap(s))
    ensures SetupsHold(Swap(t)) && FreshHolds(Swap(t)) && SetupEpochsHold(Swap(t)) && AgreeHold(Swap(t))
  {
    hide Known, ValidId, Ordinal, NextId, FirstId, OpensOk, SetupsOk, FreshOk, SetupEpochsOk, AgreeOk, Resets;
    OpeningKnown(s);
    OpeningKnown(Swap(s));
    OneOpener(s.a.role, id);
    OtherCarrier(s.b.role, id, CarrierOf(t.carriers, id), s.b.opens.highWatermark, s.a.accepts.ledger,
                 s.a.accepts.serving, s.carriers, s.b.opens.opening, Resets(s.ba), s.a.keys.recvEpoch,
                 s.a.accepts.fixed);
  }

  lemma OpenerSafe(s: System, step: OpenerStep, t: System)
    requires Live(s) && Invariant(s) && !step.SBeginOpen? && !step.SWriteAbandonReset? && TakeOpener(s, step) == Some(t)
    ensures Safe(t)
  {
    hide Known, ValidId, Ordinal, NextId, FirstId, KeysOk, PlanOk, OpensOk, LockOk, AcceptsOk, FreezeOk, AckEpochsOk,
      StreamsOk, StreamIdsOk, Chain, UpdatesLabelled, ReaderOk, Lockstep, SetupsOk, ResolutionsOk, ResetsOk, FreshOk,
      UpdateCovered, SetupEpochsOk, AgreeOk, GuardsOk, ResettingOk, BoundariesOk, Announcing, Updates, Acks, Resets,
      ResetsBefore, Boundaries, Frontier, Safe;
    match step
    case SCheckOpen => ClearanceKeeps(s, t); OpenFrame(s, t);
    case STakeEpochs => ClearanceKeeps(s, t); OpenFrame(s, t);
    case SWriteSetup =>
      WriteSetupKeepsOwn(s, t);
      WriteSetupKeepsPeer(s, t);
      WriteSetupAgrees(s, t);
      OtherDirection(s, t, s.a.opens.opening.value.id);
      OpenFrame(s, t);
    case SWriteOpen =>
      WriteOpenKeeps(s, t);
      OtherDirection(s, t, s.a.opens.opening.value.id);
      OpenFrame(s, t);
    case SReadOpenAck =>
      ResolveKeepsOwn(s, t);
      ResolveKeepsPeer(s, t);
      ResolveAgrees(s, t);
      OtherDirection(s, t, s.a.opens.opening.value.id);
      OpenFrame(s, t);
    case SRegisterOpened => RegisterOpenedKeeps(s, t); OpenFrame(s, t);
    case SAbandon => AbandonKeeps(s, t); OpenFrame(s, t);
    case SCommitAbandon(id) => CommitAbandonKeeps(s, t, id); OpenFrame(s, t);
  }

  lemma OpeningKnown(s: System)
    requires OpensHold(s)
    ensures s.a.opens.opening.Some? ==> Known(s.a.role, s.a.opens.opening.value.id)
  {
  }
}
