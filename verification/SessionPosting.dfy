/** The steps that write a control record keep the invariant. */
module SessionPosting {
  import opened Basics
  import opened Ledgers
  import opened Session
  import opened SessionInvariant

  /** A post labels its record correctly, or fails because the sequence is used up. */
  lemma PostLabels(s: System, body: Body, t: System)
    requires t == Post(s, body) && s.a.failure.None?
    requires ChainHolds(s) && LabelledHolds(s) && KeysHold(s)
    requires body.KeyUpdate? ==> body.update.nextEpoch == s.a.keys.sendEpoch + 1
    ensures t.a.failure.None? || t.a.failure == Some(SequenceExhausted)
    ensures t.a.failure.None? ==> ChainHolds(t) && LabelledHolds(t)
  {
    hide Chain, OnSchedule, Derived;
    ChainAppend(s.ab, s.b.labels.recvEpoch, s.b.labels.recvSequence, s.a.keys.sendEpoch, s.a.labels.sendSequence, body);
  }

  lemma PostReads(s: System, body: Body, t: System)
    requires t == Post(s, body) && s.a.failure.None? && t.a.failure.None?
    ensures t == s.(a := s.a.(labels := t.a.labels), ab := t.ab)
    ensures Updates(t.ab) == if body.KeyUpdate? then Updates(s.ab) + [body.update] else Updates(s.ab)
    ensures Acks(t.ab) == if body.KeyAck? then Acks(s.ab) + [body.update] else Acks(s.ab)
    ensures Resets(t.ab) == if body.Reset? then Resets(s.ab) + {body.id} else Resets(s.ab)
    ensures Boundaries(t.ab) == if body.GoAway? then Boundaries(s.ab) + {body.last} else Boundaries(s.ab)
    ensures ResetsBefore(t.ab) ==
            if Updates(s.ab) == [] && body.Reset? then ResetsBefore(s.ab) + {body.id} else ResetsBefore(s.ab)
    ensures Updates(s.ab) == [] ==> ResetsBefore(s.ab) == Resets(s.ab)
  {
    hide Updates, Acks, Resets, Boundaries, ResetsBefore;
    AppendReads(s.ab, Record(s.a.keys.sendEpoch, s.a.labels.sendSequence, body));
  }

  lemma PostPlan(s: System, body: Body, t: System)
    requires t == Post(s, body) && t.a.failure.None? && PlanHolds(s)
    ensures PlanHolds(t)
  {
  }

  // ----- PING, PONG -----------------------------------------------------------------

  lemma PostPlainSafe(s: System, body: Body, t: System)
    requires Live(s) && Invariant(s) && (body.Ping? || body.Pong?) && t == Post(s, body)
    ensures Safe(t)
  {
    hide Known, ValidId, Ordinal, NextId, FirstId, KeysOk, PlanOk, OpensOk, LockOk, AcceptsOk, FreezeOk, AckEpochsOk,
      StreamsOk, StreamIdsOk, Chain, UpdatesLabelled, ReaderOk, Lockstep, SetupsOk, ResolutionsOk, ResetsOk, FreshOk,
      UpdateCovered, SetupEpochsOk, AgreeOk, GuardsOk, ResettingOk, BoundariesOk, Announcing, Updates, Acks, Resets,
      ResetsBefore, Boundaries, Frontier;
    PostLabels(s, body, t);
    if t.a.failure.None? {
      PostPlan(s, body, t);
      PostReads(s, body, t);
    }
  }

  // ----- STREAM_RESET ---------------------------------------------------------------

  /** An ID that `a` may reset: one it opened, or one it has resolved as acceptor. */
  ghost predicate MayReset(s: System, id: nat) {
    || (Known(s.a.role, id) && id <= s.a.opens.highWatermark)
    || (Known(s.b.role, id) && Settled(s.a.accepts.ledger, id))
  }

  lemma ResetKeepsDirections(s: System, id: nat, t: System)
    requires t == s.(a := s.a.(labels := t.a.labels), ab := t.ab) && s.b.role == Other(s.a.role) && MayReset(s, id)
    requires Resets(t.ab) == Resets(s.ab) + {id} && Updates(t.ab) == Updates(s.ab)
    requires ResetsBefore(t.ab) >= ResetsBefore(s.ab)
    requires s.a.opens.opening.Some? && Unsent(s.a.opens.opening.value.stage) ==> s.a.opens.opening.value.id != id
    requires ResetsHold(s) && FreshHolds(s) && CoverHolds(s)
    requires ResetsHold(Swap(s))
    ensures ResetsHold(t) && FreshHolds(t) && CoverHolds(t)
    ensures ResetsHold(Swap(t))
  {
    hide Ordinal, ValidId, NextId, FirstId, Frontier, Updates, Acks, Resets, ResetsBefore, Boundaries, Answered;
    OneOpener(s.a.role, id);
    OneOpener(s.b.role, id);
  }

  lemma ResolutionsGrow(s: System, t: System)
    requires t.b == s.b && t.a.role == s.a.role && t.a.opens.outbound == s.a.opens.outbound
    requires Resets(s.ab) <= Resets(t.ab)
    requires forall id | id in t.a.opens.leaving && t.a.opens.leaving[id] ::
               (id in s.a.opens.leaving && s.a.opens.leaving[id]) || id in Resets(t.ab)
    requires ResolutionsHold(s)
    ensures ResolutionsHold(t)
  {
    hide Known, Resets, Answered, Settled;
  }

  lemma PostResetSafe(s: System, id: nat, t: System)
    requires Live(s) && Invariant(s) && t == Post(s, Reset(id)) && MayReset(s, id)
    requires s.a.opens.opening.Some? && Unsent(s.a.opens.opening.value.stage) ==> s.a.opens.opening.value.id != id
    ensures Safe(t)
  {
    hide Known, ValidId, Ordinal, NextId, FirstId, KeysOk, PlanOk, OpensOk, LockOk, AcceptsOk, FreezeOk, AckEpochsOk,
      StreamsOk, StreamIdsOk, Chain, UpdatesLabelled, ReaderOk, Lockstep, SetupsOk, ResolutionsOk, ResetsOk, FreshOk,
      UpdateCovered, SetupEpochsOk, AgreeOk, GuardsOk, ResettingOk, BoundariesOk, Announcing, Updates, Acks, Resets,
      ResetsBefore, Boundaries, Frontier;
    PostLabels(s, Reset(id), t);
    if t.a.failure.None? {
      PostPlan(s, Reset(id), t);
      PostReads(s, Reset(id), t);
      ResetKeepsDirections(s, id, t);
      ResolutionsGrow(s, t);
    }
  }

  lemma ResetStreamSafe(s: System, id: nat, t: System)
    requires Live(s) && Invariant(s) && ResetStream(s, id) == Some(t)
    ensures Safe(t)
  {
    hide Known, ValidId, Ordinal, NextId, FirstId, KeysOk, PlanOk, OpensOk, LockOk, AcceptsOk, FreezeOk, AckEpochsOk,
      StreamsOk, StreamIdsOk, Chain, UpdatesLabelled, ReaderOk, Lockstep, SetupsOk, ResolutionsOk, ResetsOk, FreshOk,
      UpdateCovered, SetupEpochsOk, AgreeOk, GuardsOk, ResettingOk, BoundariesOk, Announcing, Updates, Acks, Resets,
      ResetsBefore, Boundaries, Frontier;
    MarkResetKeepsStreams(s, id, t);
    MarkResetKeeps(s, id, t);
  }

  lemma MarkResetKeepsStreams(s: System, id: nat, t: System)
    requires ResetStream(s, id) == Some(t) && StreamsHold(s)
    ensures StreamsHold(t) && t.a.streams.Keys == s.a.streams.Keys
  {
  }

  lemma MarkResetKeeps(s: System, id: nat, t: System)
    requires ResetStream(s, id) == Some(t) && s.b.role == Other(s.a.role) && t.a.streams.Keys == s.a.streams.Keys
    requires StreamIdsHold(s) && AcceptsHold(s) && ResettingHolds(s)
    ensures StreamIdsHold(t) && ResettingHolds(t)
  {
    hide Ordinal, ValidId, Known;
  }

  lemma WriteResetSafe(s: System, id: nat, t: System)
    requires Live(s) && Invariant(s) && WriteReset(s, id) == Some(t)
    ensures Safe(t)
  {
    hide Known, ValidId, Ordinal, NextId, FirstId, KeysOk, PlanOk, OpensOk, LockOk, AcceptsOk, FreezeOk, AckEpochsOk,
      StreamsOk, StreamIdsOk, Chain, UpdatesLabelled, ReaderOk, Lockstep, SetupsOk, ResolutionsOk, ResetsOk, FreshOk,
      UpdateCovered, SetupEpochsOk, AgreeOk, GuardsOk, ResettingOk, BoundariesOk, Announcing, Updates, Acks, Resets,
      ResetsBefore, Boundaries, Frontier;
    var r := WithResetting(s, s.a.resetting - {id});
    ResettingParts(s, id, r);
    PostResetSafe(r, id, t);
  }

  lemma ResettingParts(s: System, id: nat, r: System)
    requires id in s.a.resetting && ResettingHolds(s) && r == WithResetting(s, s.a.resetting - {id})
    requires s.b.role == Other(s.a.role)
    ensures ResettingHolds(r) && MayReset(r, id)
    ensures s.a.opens.opening.Some? ==> s.a.opens.opening.value.id != id
  {
    hide Known, Settled;
  }

  lemma WriteAbandonResetSafe(s: System, id: nat, t: System)
    requires Live(s) && Invariant(s) && WriteAbandonReset(s, id) == Some(t)
    ensures Safe(t)
  {
    hide Known, ValidId, Ordinal, NextId, FirstId, KeysOk, PlanOk, OpensOk, LockOk, AcceptsOk, FreezeOk, AckEpochsOk,
      StreamsOk, StreamIdsOk, Chain, UpdatesLabelled, ReaderOk, Lockstep, SetupsOk, ResolutionsOk, ResetsOk, FreshOk,
      UpdateCovered, SetupEpochsOk, AgreeOk, GuardsOk, ResettingOk, BoundariesOk, Announcing, Updates, Acks, Resets,
      ResetsBefore, Boundaries, Frontier;
    var r := WithOpens(s, s.a.opens.(leaving := s.a.opens.leaving[id := true]));
    LeavingKeeps(s, id, r);
    PostLabels(r, Reset(id), t);
    if t.a.failure.None? {
      PostPlan(r, Reset(id), t);
      PostReads(r, Reset(id), t);
      ResetKeepsDirections(r, id, t);
      ResolutionsGrow(s, t);
    }
  }

  lemma LeavingKeeps(s: System, id: nat, r: System)
    requires id in s.a.opens.leaving && r == WithOpens(s, s.a.opens.(leaving := s.a.opens.leaving[id := true]))
    requires OpensHold(s) && LockHolds(s)
    ensures OpensHold(r) && LockHolds(r) && MayReset(r, id)
    ensures s.a.opens.opening.Some? ==> s.a.opens.opening.value.id != id
  {
    hide Ordinal, ValidId, Known, Frontier;
  }

  // ----- GOAWAY ---------------------------------------------------------------------

  /** The boundary that an acceptor announces is one that the opener will accept. */
  lemma FrontierWithin(opener: Role, high: nat, ledger: Ledger, serving: map<nat, Responder>,
                       carriers: map<nat, Carrier>)
    requires SetupsOk(opener, high, ledger, serving, carriers) && ledger.opener == opener
    ensures Frontier(ledger) == 0 || (Known(opener, Frontier(ledger)) && Frontier(ledger) <= high)
  {
    FrontierIsMaximal(ledger, 0);
    var f := Frontier(ledger);
    assert f != 0 ==> Known(opener, f) && Settled(ledger, f);
  }

  /** A GOAWAY under way holds only a boundary that the opener will accept. */
  lemma NoticeKeeps(s: System, step: GoawayStep, t: System)
    requires !step.SPostBoundary? && TakeGoaway(s, step) == Some(t) && s.b.role == Other(s.a.role)
    requires AcceptsHold(s) && SetupsHold(Swap(s)) && BoundariesHold(Swap(s))
    ensures BoundariesHold(Swap(t))
  {
    hide Known, Boundaries, Frontier, SetupsOk;
    FrontierWithin(s.b.role, s.b.opens.highWatermark, s.a.accepts.ledger, s.a.accepts.serving, s.carriers);
  }

  lemma NoticeSafe(s: System, step: GoawayStep, t: System)
    requires Live(s) && Invariant(s) && !step.SPostBoundary? && TakeGoaway(s, step) == Some(t)
    ensures Safe(t)
  {
    hide Known, ValidId, Ordinal, NextId, FirstId, KeysOk, PlanOk, OpensOk, LockOk, AcceptsOk, FreezeOk, AckEpochsOk,
      StreamsOk, StreamIdsOk, Chain, UpdatesLabelled, ReaderOk, Lockstep, SetupsOk, ResolutionsOk, ResetsOk, FreshOk,
      UpdateCovered, SetupEpochsOk, AgreeOk, GuardsOk, ResettingOk, BoundariesOk, Announcing, Updates, Acks, Resets,
      ResetsBefore, Boundaries, Frontier;
    NoticeKeeps(s, step, t);
  }

  lemma PostedBoundaryKeeps(s: System, closer: bool, t: System)
    requires PostBoundary(s, closer) == Some(t) && s.a.failure.None? && t.a.failure.None?
    requires BoundariesHold(Swap(s))
    ensures BoundariesHold(Swap(t))
  {
    hide Known, Boundaries;
    var last := NoticeOf(s.a.goaways, closer).last;
    PostReads(WithGoaways(s, WithNotice(s.a.goaways, closer, Quiet)), GoAway(last), t);
  }

  lemma PostBoundarySafe(s: System, closer: bool, t: System)
    requires Live(s) && Invariant(s) && PostBoundary(s, closer) == Some(t)
    ensures Safe(t)
  {
    hide Known, ValidId, Ordinal, NextId, FirstId, KeysOk, PlanOk, OpensOk, LockOk, AcceptsOk, FreezeOk, AckEpochsOk,
      StreamsOk, StreamIdsOk, Chain, UpdatesLabelled, ReaderOk, Lockstep, SetupsOk, ResolutionsOk, ResetsOk, FreshOk,
      UpdateCovered, SetupEpochsOk, AgreeOk, GuardsOk, ResettingOk, BoundariesOk, Announcing, Updates, Acks, Resets,
      ResetsBefore, Boundaries, Frontier;
    var last := NoticeOf(s.a.goaways, closer).last;
    var r := WithGoaways(s, WithNotice(s.a.goaways, closer, Quiet));
    PostLabels(r, GoAway(last), t);
    if t.a.failure.None? {
      PostPlan(r, GoAway(last), t);
      PostReads(r, GoAway(last), t);
      PostedBoundaryKeeps(s, closer, t);
    }
  }

  /** The ledger is full: the open fails and a GOAWAY is due. */
  lemma ExhaustedOpenSafe(s: System, t: System)
    requires Live(s) && Invariant(s)
    requires BeginOpen(s) == Some(t) && MarkFss2(s.a.opens.outbound, s.a.opens.nextId).Refused?
    ensures Safe(t)
  {
    hide Known, ValidId, Ordinal, NextId, FirstId, KeysOk, PlanOk, OpensOk, LockOk, AcceptsOk, FreezeOk, AckEpochsOk,
      StreamsOk, StreamIdsOk, Chain, UpdatesLabelled, ReaderOk, Lockstep, SetupsOk, ResolutionsOk, ResetsOk, FreshOk,
      UpdateCovered, SetupEpochsOk, AgreeOk, GuardsOk, ResettingOk, BoundariesOk, Announcing, Updates, Acks, Resets,
      ResetsBefore, Boundaries, Frontier;
    ExhaustedKeeps(s, t);
  }

  lemma ExhaustedKeeps(s: System, t: System)
    requires BeginOpen(s) == Some(t) && MarkFss2(s.a.opens.outbound, s.a.opens.nextId).Refused?
    requires OpensHold(s) && LockHolds(s) && BoundariesHold(Swap(s))
    ensures OpensHold(t) && LockHolds(t) && BoundariesHold(Swap(t))
  {
    hide Boundaries;
  }
}
