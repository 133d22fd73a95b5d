/** The steps of an endpoint's own rekey keep the invariant. */
module SessionRekeying {
  import opened Basics
  import opened Ledgers
  import opened Session
  import opened SessionInvariant
  import opened SessionPosting

  // ----- Preparing ------------------------------------------------------------------

  predicate PrepareStep(step: RekeyStep) {
    step.SBeginRekey? || step.SFinishDraining? || step.SCancelPrepare? || step.SDropFreeze? || step.SDropActivity?
  }

  lemma PrepareStepKeeps(s: System, step: RekeyStep, t: System)
    requires PrepareStep(step) && TakeRekey(s, step) == Some(t)
    requires KeysHold(s) && PlanHolds(s) && GuardsHold(s) && LockHolds(s) && LockstepHolds(s)
    ensures KeysHold(t) && PlanHolds(t) && GuardsHold(t) && LockHolds(t) && LockstepHolds(t)
  {
    hide OnSchedule, Derived, Settled, Known, Updates, Acks, Frontier, Drained;
  }

  lemma PrepareStepKeepsStreams(s: System, step: RekeyStep, t: System)
    requires PrepareStep(step) && TakeRekey(s, step) == Some(t)
    requires FreezeHolds(s) && AckEpochsHold(s) && StreamsHold(s)
    ensures FreezeHolds(t) && AckEpochsHold(t) && StreamsHold(t)
  {
  }

  /** When the rekey has its frontier, every stream this side opened is resolved. */
  lemma FrontierResolves(s: System)
    requires OpensHold(s)
    ensures Frontier(s.a.opens.outbound) <= s.a.opens.highWatermark
    ensures Frontier(s.a.opens.outbound) == s.a.opens.highWatermark ==> AllResolved(s.a.role, s.a.opens)
  {
    hide Ordinal, ValidId;
    FrontierIsMaximal(s.a.opens.outbound, 0);
    var f := Frontier(s.a.opens.outbound);
    assert f != 0 ==> Known(s.a.role, f) && Settled(s.a.opens.outbound, f);
  }

  lemma PrepareKeeps(s: System, t: System)
    requires Prepare(s) == Some(t) && OpensHold(s)
    requires KeysHold(s) && PlanHolds(s) && GuardsHold(s) && LockHolds(s)
    requires FreezeHolds(s) && StreamsHold(s) && LockstepHolds(s)
    ensures t.a.failure == s.a.failure
    ensures KeysHold(t) && PlanHolds(t) && GuardsHold(t) && LockHolds(t)
    ensures FreezeHolds(t) && StreamsHold(t) && LockstepHolds(t)
  {
    hide OpensOk, Known, Updates, Acks, Frontier, AllResolved;
    FrontierResolves(s);
    assert t.a.rekeys.local.Prepared?;
    var d := SendDirection(s.a.role);
    assert Derived(d, s.a.keys.sendEpoch + 1) == NextEpoch(Derived(d, s.a.keys.sendEpoch), d, s.a.keys.sendEpoch + 1);
  }

  // ----- Committing -----------------------------------------------------------------

  lemma CommitKeeps(s: System, t: System)
    requires Commit(s) == Some(t)
    requires KeysHold(s) && PlanHolds(s) && GuardsHold(s) && LockHolds(s)
    requires FreezeHolds(s) && StreamsHold(s) && LockstepHolds(s)
    ensures t.a.failure == s.a.failure
    ensures KeysHold(t) && PlanHolds(t) && GuardsHold(t) && LockHolds(t)
    ensures FreezeHolds(t) && StreamsHold(t) && LockstepHolds(t)
  {
    hide Known, Updates, Acks, Frontier, AllResolved, Derived;
  }

  lemma WriteStreamUpdateKeeps(s: System, t: System, id: nat)
    requires WriteStreamUpdate(s, id) == Some(t)
    requires KeysHold(s) && PlanHolds(s) && GuardsHold(s) && LockHolds(s)
    requires FreezeHolds(s) && StreamsHold(s) && LockstepHolds(s)
    requires StreamIdsHold(s)
    ensures t.a.failure == s.a.failure
    ensures KeysHold(t) && PlanHolds(t) && GuardsHold(t) && LockHolds(t)
    ensures FreezeHolds(t) && StreamsHold(t) && LockstepHolds(t)
    ensures StreamIdsHold(t)
  {
    hide Known, Updates, Acks, Frontier, AllResolved, Derived, OnSchedule, StreamIdsOk;
    assert t.a.streams.Keys == s.a.streams.Keys;
  }

  lemma WriteKeyUpdateKeepsOwn(s: System, r: System)
    requires s.a.rekeys.local.Updating? && s.a.rekeys.local.todo == {}
    requires r == WithLocal(s, AwaitingAck(s.a.rekeys.local.plan))
    requires KeysHold(s) && GuardsHold(s) && LockHolds(s) && FreezeHolds(s) && StreamsHold(s)
    ensures KeysHold(r) && GuardsHold(r) && LockHolds(r) && FreezeHolds(r) && StreamsHold(r)
  {
    hide Known, Frontier, AllResolved, Derived, OnSchedule;
  }

  /** The update goes out behind every reset that resolves an ID below its watermark. */
  lemma WriteKeyUpdateKeepsPeer(s: System, t: System)
    requires WriteKeyUpdate(s) == Some(t) && s.a.failure.None? && t.a.failure.None?
    requires PlanHolds(s) && LockHolds(s) && LockstepHolds(s) && ResolutionsHold(s) && CoverHolds(s)
    ensures PlanHolds(t) && LockstepHolds(t) && CoverHolds(t)
  {
    hide Known, Frontier, Updates, Acks, Resets, ResetsBefore, Answered, Settled;
    var p := s.a.rekeys.local.plan;
    PostReads(WithLocal(s, AwaitingAck(p)), KeyUpdate(p.update), t);
  }

  lemma WriteKeyUpdateSafe(s: System, t: System)
    requires Live(s) && Invariant(s) && WriteKeyUpdate(s) == Some(t)
    ensures Safe(t)
  {
    hide Known, ValidId, Ordinal, NextId, FirstId, KeysOk, PlanOk, OpensOk, LockOk, AcceptsOk, FreezeOk, AckEpochsOk,
      StreamsOk, StreamIdsOk, Chain, UpdatesLabelled, ReaderOk, Lockstep, SetupsOk, ResolutionsOk, ResetsOk, FreshOk,
      UpdateCovered, SetupEpochsOk, AgreeOk, GuardsOk, ResettingOk, BoundariesOk, Announcing, Updates, Acks, Resets,
      ResetsBefore, Boundaries, Frontier;
    var p := s.a.rekeys.local.plan;
    var r := WithLocal(s, AwaitingAck(p));
    WriteKeyUpdateKeepsOwn(s, r);
    assert p.update.nextEpoch == s.a.keys.sendEpoch + 1 by { PlanAnnounces(s); }
    PostLabels(r, KeyUpdate(p.update), t);
    if t.a.failure.None? {
      PostReads(r, KeyUpdate(p.update), t);
      WriteKeyUpdateKeepsPeer(s, t);
    }
  }

  lemma PlanAnnounces(s: System)
    requires PlanHolds(s) && s.a.rekeys.local.Updating?
    ensures s.a.rekeys.local.plan.update.nextEpoch == s.a.keys.sendEpoch + 1
  {
  }

  // ----- Completing -----------------------------------------------------------------

  lemma SwitchEpochKeeps(s: System, t: System)
    requires SwitchEpoch(s) == Some(t)
    requires KeysHold(s) && PlanHolds(s) && GuardsHold(s) && LockHolds(s)
    requires FreezeHolds(s) && AckEpochsHold(s) && StreamsHold(s)
    requires LockstepHolds(s) && ChainHolds(s)
    ensures KeysHold(t) && PlanHolds(t) && GuardsHold(t) && LockHolds(t)
    ensures FreezeHolds(t) && AckEpochsHold(t) && StreamsHold(t)
    ensures LockstepHolds(t) && ChainHolds(t)
  {
    hide Known, Updates, Acks, Frontier, AllResolved, Derived, OnSchedule, Chain;
    ChainSwitch(s.ab, s.b.labels.recvEpoch, s.b.labels.recvSequence, s.a.keys.sendEpoch, s.a.labels.sendSequence);
  }

  lemma FinishRekeyKeeps(s: System, t: System)
    requires FinishRekey(s) == Some(t) && AckEpochsHold(s)
    requires KeysHold(s) && PlanHolds(s) && GuardsHold(s) && LockHolds(s)
    requires FreezeHolds(s) && StreamsHold(s) && LockstepHolds(s)
    ensures KeysHold(t) && PlanHolds(t) && GuardsHold(t) && LockHolds(t)
    ensures FreezeHolds(t) && StreamsHold(t) && LockstepHolds(t)
  {
    hide Known, Updates, Acks, Frontier, AllResolved, Derived;
  }

  // ----- Together -------------------------------------------------------------------

  lemma RekeyFrame(s: System, t: System)
    requires Live(s) && Invariant(s)
    requires t == s.(a := s.a.(keys := t.a.keys, labels := t.a.labels, rekeys := t.a.rekeys, guards := t.a.guards,
                               streams := t.a.streams))
    requires t.a.rekeys.peer == s.a.rekeys.peer && t.a.keys.recvEpoch == s.a.keys.recvEpoch
    requires t.a.labels == s.a.labels.(sendSequence := t.a.labels.sendSequence)
    requires t.a.streams.Keys == s.a.streams.Keys
    requires KeysHold(t) && PlanHolds(t) && GuardsHold(t) && LockHolds(t)
    requires FreezeHolds(t) && AckEpochsHold(t) && StreamsHold(t)
    requires LockstepHolds(t) && ChainHolds(t)
    ensures Safe(t)
  {
    hide Known, ValidId, Ordinal, NextId, FirstId, KeysOk, PlanOk, OpensOk, LockOk, AcceptsOk, FreezeOk, AckEpochsOk,
      StreamsOk, StreamIdsOk, Chain, UpdatesLabelled, ReaderOk, Lockstep, SetupsOk, ResolutionsOk, ResetsOk, FreshOk,
      UpdateCovered, SetupEpochsOk, AgreeOk, GuardsOk, ResettingOk, BoundariesOk, Announcing, Updates, Acks, Resets,
      ResetsBefore, Boundaries, Frontier;
  }

  lemma PrepareStepSafe(s: System, step: RekeyStep, t: System)
    requires Live(s) && Invariant(s) && PrepareStep(step) && TakeRekey(s, step) == Some(t)
    ensures Safe(t)
  {
    hide Known, ValidId, Ordinal, NextId, FirstId, KeysOk, PlanOk, OpensOk, LockOk, AcceptsOk, FreezeOk, AckEpochsOk,
      StreamsOk, StreamIdsOk, Chain, UpdatesLabelled, ReaderOk, Lockstep, SetupsOk, ResolutionsOk, ResetsOk, FreshOk,
      UpdateCovered, SetupEpochsOk, AgreeOk, GuardsOk, ResettingOk, BoundariesOk, Announcing, Updates, Acks, Resets,
      ResetsBefore, Boundaries, Frontier, Safe;
    PrepareStepKeeps(s, step, t);
    PrepareStepKeepsStreams(s, step, t);
    RekeyFrame(s, t);
  }

  lemma RekeyStepSafe(s: System, step: RekeyStep, t: System)
    requires Live(s) && Invariant(s) && TakeRekey(s, step) == Some(t)
    ensures Safe(t)
  {
    hide Known, ValidId, Ordinal, NextId, FirstId, KeysOk, PlanOk, OpensOk, LockOk, AcceptsOk, FreezeOk, AckEpochsOk,
      StreamsOk, StreamIdsOk, Chain, UpdatesLabelled, ReaderOk, Lockstep, SetupsOk, ResolutionsOk, ResetsOk, FreshOk,
      UpdateCovered, SetupEpochsOk, AgreeOk, GuardsOk, ResettingOk, BoundariesOk, Announcing, Updates, Acks, Resets,
      ResetsBefore, Boundaries, Frontier, Safe;
    match step
    case SPrepare => PrepareKeeps(s, t); RekeyFrame(s, t);
    case SCommit => CommitKeeps(s, t); RekeyFrame(s, t);
    case SWriteStreamUpdate(id) =>
      WriteStreamUpdateKeeps(s, t, id);
      assert t.a.streams.Keys == s.a.streams.Keys;
      RekeyFrame(s, t);
    case SSwitchEpoch => SwitchEpochKeeps(s, t); RekeyFrame(s, t);
    case SFinishRekey => FinishRekeyKeeps(s, t); RekeyFrame(s, t);
    case SWriteKeyUpdate => WriteKeyUpdateSafe(s, t);
    case _ => PrepareStepSafe(s, step, t);
  }
}
