/** The control loop's reads keep the invariant. */
module SessionReading {
  import opened Basics
  import opened Ledgers
  import opened Session
  import opened SessionInvariant
  import opened SessionPosting

  /** The next record always carries the expected label: the header check can only
      fail for want of the epoch's roots. */
  lemma HeaderAccepted(s: System, t: System)
    requires s.ba != [] && t == Accept(s) && s.a.failure.None? && s.b.role == Other(s.a.role)
    requires ChainHolds(Swap(s)) && ReaderHolds(Swap(s)) && LockstepHolds(Swap(s))
    ensures t.a.failure == if s.ba[0].epoch in s.a.keys.recvRoots then None else Some(RootsPruned)
    ensures t.a.failure.None? ==>
              && ChainHolds(Swap(t))
              && t == s.(a := s.a.(labels := t.a.labels), ba := s.ba[1..])
              && t.a.labels == s.a.labels.(recvEpoch := s.ba[0].epoch, recvSequence := s.ba[0].sequence + 1)
              && s.ba[0].epoch <= s.a.keys.recvEpoch <= s.ba[0].epoch + 1
  {
    hide Updates, Acks;
    ChainBounds(s.ba, s.a.labels.recvEpoch, s.a.labels.recvSequence, s.b.keys.sendEpoch, s.b.labels.sendSequence);
  }

  lemma PopReads(q: seq<Record>)
    requires q != []
    ensures Updates(q) == if q[0].body.KeyUpdate? then [q[0].body.update] + Updates(q[1..]) else Updates(q[1..])
    ensures Acks(q) == if q[0].body.KeyAck? then [q[0].body.update] + Acks(q[1..]) else Acks(q[1..])
    ensures Resets(q) == if q[0].body.Reset? then {q[0].body.id} + Resets(q[1..]) else Resets(q[1..])
    ensures Boundaries(q) == if q[0].body.GoAway? then {q[0].body.last} + Boundaries(q[1..]) else Boundaries(q[1..])
    ensures q[0].body.KeyUpdate? ==> ResetsBefore(q) == {}
    ensures q[0].body.Reset? ==> ResetsBefore(q) == {q[0].body.id} + ResetsBefore(q[1..])
    ensures !q[0].body.KeyUpdate? && !q[0].body.Reset? ==> ResetsBefore(q) == ResetsBefore(q[1..])
    ensures UpdatesLabelled(q) ==> UpdatesLabelled(q[1..])
    ensures UpdatesLabelled(q) && q[0].body.KeyUpdate? ==> q[0].body.update.nextEpoch == q[0].epoch + 1
  {
  }

  // ----- PING, PONG, GOAWAY ---------------------------------------------------------

  lemma FewerBoundaries(u: System, v: System)
    requires BoundariesHold(u) && Boundaries(v.ba) <= Boundaries(u.ba)
    requires v.a.role == u.a.role && v.a.opens.highWatermark == u.a.opens.highWatermark && v.b.goaways == u.b.goaways
    ensures BoundariesHold(v)
  {
    hide Known, Boundaries, Announcing;
  }

  lemma ReaderStays(s: System, t: System)
    requires s.a.rekeys.peer.Listening? && ReaderHolds(Swap(s))
    requires t.a.rekeys == s.a.rekeys && t.a.keys == s.a.keys
    requires t.a.labels.recvEpoch <= s.a.keys.recvEpoch <= t.a.labels.recvEpoch + 1
    ensures ReaderHolds(Swap(t))
  {
  }

  lemma PlainReadInvariant(s: System, t: System)
    requires Live(s) && Invariant(s) && s.ba != [] && t == Accept(s) && t.a.failure.None?
    requires s.a.rekeys.peer.Listening?
    requires s.ba[0].body.Ping? || s.ba[0].body.Pong? || s.ba[0].body.GoAway?
    ensures Invariant(t)
  {
    hide Known, ValidId, Ordinal, NextId, FirstId, KeysOk, PlanOk, OpensOk, LockOk, AcceptsOk, FreezeOk, AckEpochsOk,
      StreamsOk, StreamIdsOk, Chain, UpdatesLabelled, ReaderOk, Lockstep, SetupsOk, ResolutionsOk, ResetsOk, FreshOk,
      UpdateCovered, SetupEpochsOk, AgreeOk, GuardsOk, ResettingOk, BoundariesOk, Announcing, Updates, Acks, Resets,
      ResetsBefore, Boundaries, Frontier;
    HeaderAccepted(s, t);
    PopReads(s.ba);
    ReaderStays(s, t);
    FewerBoundaries(s, t);
  }

  lemma ReceivedAside(g: Goaways, received: Option<nat>)
    ensures Announcing(g.(received := received)) == Announcing(g)
  {
  }

  /** A GOAWAY from an honest acceptor is never out of bounds. */
  lemma BoundaryAccepted(s: System, last: nat)
    requires BoundariesHold(s) && last in Boundaries(s.ba)
    ensures ValidBoundary(s.a.role, last, s.a.opens.highWatermark)
  {
    hide Boundaries, Announcing;
  }

  lemma ReadPlainSafe(s: System, t: System)
    requires Live(s) && Invariant(s) && ReadControl(s) == Some(t)
    requires s.ba[0].body.Ping? || s.ba[0].body.Pong? || s.ba[0].body.GoAway?
    ensures Safe(t)
  {
    hide Known, ValidId, Ordinal, NextId, FirstId, KeysOk, PlanOk, OpensOk, LockOk, AcceptsOk, FreezeOk, AckEpochsOk,
      StreamsOk, StreamIdsOk, Chain, UpdatesLabelled, ReaderOk, Lockstep, SetupsOk, ResolutionsOk, ResetsOk, FreshOk,
      UpdateCovered, SetupEpochsOk, AgreeOk, GuardsOk, ResettingOk, BoundariesOk, Announcing, Updates, Acks, Resets,
      ResetsBefore, Boundaries, Frontier;
    var r := Accept(s);
    HeaderAccepted(s, r);
    if r.a.failure.None? {
      PlainReadInvariant(s, r);
      if s.ba[0].body.Ping? {
        PostPlainSafe(r, Pong(s.ba[0].body.nonce), t);
      } else if s.ba[0].body.GoAway? {
        PopReads(s.ba);
        BoundaryAccepted(s, s.ba[0].body.last);
        ReceivedAside(r.a.goaways, t.a.goaways.received);
      }
    }
  }

  // ----- STREAM_RESET of a stream that the peer opened ------------------------------

  /** Marking a stream as reset changes no key and no ID. */
  lemma ResetFlagKeeps(streams: map<nat, Stream>, id: nat, sendEpoch: nat, local: LocalPhase,
                       overlapped: bool)
    requires id in streams && StreamsOk(streams, sendEpoch, local, overlapped)
    ensures StreamsOk(streams[id := streams[id].(reset := true)], sendEpoch, local, overlapped)
    ensures streams[id := streams[id].(reset := true)].Keys == streams.Keys
  {
  }

  lemma PeerResetShape(s: System, t: System, id: nat)
    requires t == ReceiveReset(s, id) && Known(Other(s.a.role), id)
    requires s.a.accepts.ledger.opener == Other(s.a.role) && StreamsHold(s)
    ensures t == s.(a := s.a.(accepts := t.a.accepts, streams := t.a.streams))
    ensures t.a.accepts == s.a.accepts.(ledger := MarkPeerReset(s.a.accepts.ledger, id).ledger)
    ensures StreamsHold(t) && t.a.streams.Keys == s.a.streams.Keys
  {
    hide Known, StreamsOk;
    if id in s.a.streams {
      ResetFlagKeeps(s.a.streams, id, s.a.keys.sendEpoch, s.a.rekeys.local, s.a.guards.overlapped);
    }
  }

  lemma PeerResetLedger(l: Ledger, m: Ledger, id: nat)
    requires Known(l.opener, id) && MarkPeerReset(l, id) == Marked(m)
    ensures m.opener == l.opener
    ensures forall i: nat | i != id :: StateOf(m, i) == StateOf(l, i)
    ensures Settled(m, id) && Forward(StateOf(l, id), StateOf(m, id))
    ensures StateOf(m, id) == AbandonedNoFss2 || StateOf(l, id) == OpenSeen || StateOf(l, id) == UsedOrTerminal
    ensures StateOf(l, id) == OpenSeen || StateOf(l, id) == UsedOrTerminal ==> StateOf(m, id) == UsedOrTerminal
  {
    hide Known;
    PutReads(l, id, AbandonedNoFss2);
    PutReads(l, id, UsedOrTerminal);
  }

  lemma PeerResetKeepsAccepts(s: System, t: System, id: nat)
    requires t.a.role == s.a.role && t.a.opens == s.a.opens && t.a.streams.Keys == s.a.streams.Keys
    requires t.a.accepts == s.a.accepts.(ledger := t.a.accepts.ledger)
    requires t.a.accepts.ledger.opener == s.a.accepts.ledger.opener
    requires forall i: nat | i != id :: StateOf(t.a.accepts.ledger, i) == StateOf(s.a.accepts.ledger, i)
    requires Settled(t.a.accepts.ledger, id)
    requires StateOf(s.a.accepts.ledger, id) == OpenSeen || StateOf(s.a.accepts.ledger, id) == UsedOrTerminal ==>
               StateOf(t.a.accepts.ledger, id) == UsedOrTerminal
    requires StateOf(t.a.accepts.ledger, id) == AbandonedNoFss2 || StateOf(s.a.accepts.ledger, id) == OpenSeen
             || StateOf(s.a.accepts.ledger, id) == UsedOrTerminal
    requires AcceptsHold(s) && StreamIdsHold(s)
    ensures AcceptsHold(t) && StreamIdsHold(t)
  {
    hide Known;
  }

  /** Popping the reset and marking its ID leaves every reset-backed promise kept. */
  lemma PeerResetKeepsPromises(u: System, v: System, id: nat)
    requires u.b.accepts.serving == v.b.accepts.serving && v.a == u.a && v.b.rekeys == u.b.rekeys && v.ba == u.ba
    requires Settled(v.b.accepts.ledger, id)
    requires forall i: nat | Settled(u.b.accepts.ledger, i) :: Settled(v.b.accepts.ledger, i)
    requires Resets(u.ab) == {id} + Resets(v.ab) && ResetsBefore(u.ab) == {id} + ResetsBefore(v.ab)
    requires Updates(u.ab) == Updates(v.ab)
    requires ResolutionsHold(u) && ResetsHold(u) && CoverHolds(u)
    ensures ResolutionsHold(v) && ResetsHold(v) && CoverHolds(v)
  {
    hide Known, Settled, Updates, Resets, ResetsBefore;
  }

  lemma PeerResetKeepsSetups(u: System, v: System, id: nat)
    requires v.carriers == u.carriers && v.b.accepts == u.b.accepts.(ledger := v.b.accepts.ledger)
    requires v.a == u.a && v.b.keys == u.b.keys
    requires forall i: nat | i != id :: StateOf(v.b.accepts.ledger, i) == StateOf(u.b.accepts.ledger, i)
    requires Settled(v.b.accepts.ledger, id)
    requires StateOf(v.b.accepts.ledger, id) == AbandonedNoFss2 || StateOf(u.b.accepts.ledger, id) == OpenSeen
             || StateOf(u.b.accepts.ledger, id) == UsedOrTerminal
    requires id in Resets(u.ab) && Known(u.a.role, id) && Resets(v.ab) <= Resets(u.ab)
    requires SetupsHold(u) && FreshHolds(u) && SetupEpochsHold(u) && ResetsHold(u)
    ensures SetupsHold(v) && FreshHolds(v) && SetupEpochsHold(v)
  {
    hide Ordinal, NextId, FirstId, Frontier, Resets;
  }

  lemma PeerResetAgrees(u: System, v: System, id: nat)
    requires v.carriers == u.carriers && v.b.accepts == u.b.accepts.(ledger := v.b.accepts.ledger) && v.a == u.a
    requires forall i: nat | i != id :: StateOf(v.b.accepts.ledger, i) == StateOf(u.b.accepts.ledger, i)
    requires StateOf(u.b.accepts.ledger, id) == OpenSeen || StateOf(u.b.accepts.ledger, id) == UsedOrTerminal ==>
               StateOf(v.b.accepts.ledger, id) == UsedOrTerminal
    requires AgreeHold(u)
    ensures AgreeHold(v)
  {
    hide Known, StateOf;
  }

  lemma FewerBackResets(u: System, v: System)
    requires v.a == u.a && v.b == u.b && v.ab == u.ab && Resets(v.ba) <= Resets(u.ba) && ResetsHold(u)
    ensures ResetsHold(v)
  {
    hide Known, Settled, Resets;
  }

  lemma ReadPeerResetSafe(s: System, t: System, id: nat)
    requires Live(s) && Invariant(s) && ReadControl(s) == Some(t)
    requires s.ba[0].body == Reset(id) && Known(s.b.role, id)
    ensures Safe(t)
  {
    hide Known, ValidId, Ordinal, NextId, FirstId, KeysOk, PlanOk, OpensOk, LockOk, AcceptsOk, FreezeOk, AckEpochsOk,
      StreamsOk, StreamIdsOk, Chain, UpdatesLabelled, ReaderOk, Lockstep, SetupsOk, ResolutionsOk, ResetsOk, FreshOk,
      UpdateCovered, SetupEpochsOk, AgreeOk, GuardsOk, ResettingOk, BoundariesOk, Announcing, Updates, Acks, Resets,
      ResetsBefore, Boundaries, Frontier, Settled;
    var r := Accept(s);
    HeaderAccepted(s, r);
    if r.a.failure.None? {
      PopReads(s.ba);
      ReaderStays(s, r);
      assert r.a.accepts.ledger.opener == s.b.role by { AcceptsOpener(s); }
      PeerResetShape(r, t, id);
      PeerResetLedger(r.a.accepts.ledger, t.a.accepts.ledger, id);
      PeerResetKeepsAccepts(s, t, id);
      SettledStays(r.a.accepts.ledger, t.a.accepts.ledger, id);
      PeerResetKeepsPromises(Swap(s), Swap(t), id);
      ResettingSettles(s, t);
      PeerResetKeepsSetups(Swap(s), Swap(t), id);
      PeerResetAgrees(Swap(s), Swap(t), id);
      FewerBackResets(s, s.(ba := s.ba[1..]));
    }
  }

  lemma AcceptsOpener(s: System)
    requires AcceptsHold(s)
    ensures s.a.accepts.ledger.opener == Other(s.a.role)
  {
  }

  lemma SettledStays(l: Ledger, m: Ledger, id: nat)
    requires forall i: nat | i != id :: StateOf(m, i) == StateOf(l, i)
    requires Settled(m, id)
    ensures forall i: nat | Settled(l, i) :: Settled(m, i)
  {
  }

  // ----- STREAM_RESET of a stream that this side opened -----------------------------

  lemma OwnResetShape(s: System, t: System, id: nat)
    requires t == ReceiveReset(s, id) && Known(s.a.role, id) && !Known(Other(s.a.role), id)
    requires s.a.opens.outbound.opener == s.a.role && StreamsHold(s)
    ensures t == s.(a := s.a.(opens := t.a.opens, streams := t.a.streams))
    ensures t.a.opens == s.a.opens.(outbound := MarkPeerReset(s.a.opens.outbound, id).ledger)
    ensures StreamsHold(t) && t.a.streams.Keys == s.a.streams.Keys
  {
    hide Known, StreamsOk;
    if id in s.a.streams {
      ResetFlagKeeps(s.a.streams, id, s.a.keys.sendEpoch, s.a.rekeys.local, s.a.guards.overlapped);
    }
  }

  /** The acceptor resets only what it has resolved, so the opener may settle it too. */
  lemma OwnResetKeeps(s: System, t: System, id: nat)
    requires t.a.role == s.a.role && t.b == s.b && Known(s.a.role, id) && id in Resets(s.ba) && t.ab == s.ab
    requires t.a.opens == s.a.opens.(outbound := t.a.opens.outbound)
    requires t.a.rekeys == s.a.rekeys && t.a.keys == s.a.keys
    requires MarkPeerReset(s.a.opens.outbound, id) == Marked(t.a.opens.outbound)
    requires OpensHold(s) && LockHolds(s) && ResolutionsHold(s) && ResetsHold(s) && SetupsHold(s)
    ensures OpensHold(t) && LockHolds(t) && ResolutionsHold(t)
  {
    hide Ordinal, ValidId, NextId, FirstId, Frontier, Resets;
    PeerResetLedger(s.a.opens.outbound, t.a.opens.outbound, id);
    assert Settled(s.b.accepts.ledger, id);
  }

  lemma ForeignResetPopped(u: System, v: System, id: nat)
    requires v.a == u.a && v.b.accepts == u.b.accepts && v.b.rekeys == u.b.rekeys && v.b.role == u.b.role
    requires v.ba == u.ba && v.carriers == u.carriers && !Known(u.a.role, id)
    requires Resets(u.ab) == {id} + Resets(v.ab) && ResetsBefore(u.ab) == {id} + ResetsBefore(v.ab)
    requires Updates(u.ab) == Updates(v.ab)
    requires OpensHold(u) && ResolutionsHold(u) && ResetsHold(u) && CoverHolds(u) && FreshHolds(u)
    ensures ResolutionsHold(v) && ResetsHold(v) && CoverHolds(v) && FreshHolds(v)
  {
    hide Ordinal, ValidId, Known, Settled, Answered, Updates, Resets, ResetsBefore, NextId;
  }

  lemma OpensOpener(s: System)
    requires OpensHold(s)
    ensures s.a.opens.outbound.opener == s.a.role
  {
  }

  lemma ReadOwnResetSafe(s: System, t: System, id: nat)
    requires Live(s) && Invariant(s) && ReadControl(s) == Some(t)
    requires s.ba[0].body == Reset(id) && Known(s.a.role, id)
    ensures Safe(t)
  {
    hide Known, ValidId, Ordinal, NextId, FirstId, KeysOk, PlanOk, OpensOk, LockOk, AcceptsOk, FreezeOk, AckEpochsOk,
      StreamsOk, StreamIdsOk, Chain, UpdatesLabelled, ReaderOk, Lockstep, SetupsOk, ResolutionsOk, ResetsOk, FreshOk,
      UpdateCovered, SetupEpochsOk, AgreeOk, GuardsOk, ResettingOk, BoundariesOk, Announcing, Updates, Acks, Resets,
      ResetsBefore, Boundaries, Frontier, Settled;
    var r := Accept(s);
    HeaderAccepted(s, r);
    OneOpener(s.a.role, id);
    if r.a.failure.None? {
      PopReads(s.ba);
      ReaderStays(s, r);
      OpensOpener(s);
      OwnResetShape(r, t, id);
      OwnResetKeeps(s, t, id);
      ForeignResetPopped(Swap(s), Swap(r), id);
      FewerBackResets(s, s.(ba := s.ba[1..]));
    }
  }

  lemma ResetIdKnown(s: System, id: nat)
    requires ResetsHold(Swap(s)) && id in Resets(s.ba) && s.b.role == Other(s.a.role)
    ensures Known(s.a.role, id) || Known(s.b.role, id)
  {
    hide Resets;
  }

  // ----- SESSION_KEY_UPDATE ---------------------------------------------------------

  lemma ReadUpdateKeepsOwn(s: System, r: System, t: System, u: Update)
    requires r == s.(a := s.a.(labels := r.a.labels), ba := r.ba) && s.a.rekeys.peer.Listening?
    requires t == WithRekeys(r, r.a.rekeys.(peer := PeerDraining(u)))
    requires r.a.labels.recvEpoch in s.a.keys.recvRoots && u.nextEpoch == r.a.labels.recvEpoch + 1
    requires u.nextEpoch == s.a.keys.recvEpoch + 1
    requires r.a.labels.sendSequence == s.a.labels.sendSequence
    requires KeysHold(s) && PlanHolds(s) && FreezeHolds(s)
    ensures KeysHold(t) && PlanHolds(t) && FreezeHolds(t) && ReaderHolds(Swap(t))
  {
    hide OnSchedule, Derived;
  }

  /** The only outstanding update passes from the channel to its reader. */
  lemma ReadUpdateKeepsPeer(u: System, v: System, update: Update)
    requires v.a == u.a && v.b.keys == u.b.keys && v.ba == u.ba && v.b.accepts == u.b.accepts
    requires u.b.rekeys.peer.Listening? && v.b.rekeys.peer == PeerDraining(update)
    requires Updates(u.ab) == [update] + Updates(v.ab) && ResetsBefore(u.ab) == {}
    requires PlanHolds(u) && LockstepHolds(u) && CoverHolds(u)
    ensures LockstepHolds(v) && CoverHolds(v) && Updates(v.ab) == []
    ensures update.nextEpoch == u.b.keys.recvEpoch + 1
  {
    hide Known, Answered, Updates, Acks, ResetsBefore;
    var all := Updates(u.ab) + Held(u.b.rekeys.peer) + Acks(u.ba);
    assert |all| <= 1 && all[0] == update;
    assert Acks(u.ba) == [];
  }

  lemma ReadUpdateSafe(s: System, t: System)
    requires Live(s) && Invariant(s) && ReadControl(s) == Some(t) && s.ba[0].body.KeyUpdate?
    ensures Safe(t)
  {
    hide Known, ValidId, Ordinal, NextId, FirstId, KeysOk, PlanOk, OpensOk, LockOk, AcceptsOk, FreezeOk, AckEpochsOk,
      StreamsOk, StreamIdsOk, Chain, UpdatesLabelled, ReaderOk, Lockstep, SetupsOk, ResolutionsOk, ResetsOk, FreshOk,
      UpdateCovered, SetupEpochsOk, AgreeOk, GuardsOk, ResettingOk, BoundariesOk, Announcing, Updates, Acks, Resets,
      ResetsBefore, Boundaries, Frontier;
    var r := Accept(s);
    HeaderAccepted(s, r);
    if r.a.failure.None? {
      var u := s.ba[0].body.update;
      PopReads(s.ba);
      ReadUpdateKeepsPeer(Swap(s), Swap(t), u);
      ReadUpdateKeepsOwn(s, r, t, u);
    }
  }

  // ----- SESSION_KEY_UPDATE_ACK -----------------------------------------------------

  /** An ACK in flight is for the update that the sender is waiting on. */
  lemma AckExpected(s: System, update: Update)
    requires PlanHolds(s) && LockstepHolds(s) && Acks(s.ba) != [] && update == Acks(s.ba)[0]
    ensures s.a.rekeys.local.AwaitingAck? && s.a.rekeys.local.plan.update == update
    ensures s.a.rekeys.pending == map[update.transition := update]
    ensures |Acks(s.ba)| == 1
  {
    hide Updates, Acks;
    var all := Updates(s.ab) + Held(s.b.rekeys.peer) + Acks(s.ba);
    assert |all| >= 1 && all[|all| - |Acks(s.ba)|] == update;
  }

  lemma ReadAckKeeps(s: System, r: System, t: System, update: Update)
    requires r == s.(a := s.a.(labels := r.a.labels), ba := r.ba)
    requires r.a.labels.sendSequence == s.a.labels.sendSequence
    requires t == ReceiveAck(r, update) && Acks(s.ba) == [update] + Acks(r.ba)
    requires KeysHold(s) && PlanHolds(s) && GuardsHold(s) && LockHolds(s)
    requires FreezeHolds(s) && StreamsHold(s) && LockstepHolds(s)
    ensures t.a.failure == s.a.failure && t == r.(a := r.a.(rekeys := t.a.rekeys))
    ensures t.a.rekeys.peer == s.a.rekeys.peer
    ensures KeysHold(t) && PlanHolds(t) && GuardsHold(t) && LockHolds(t)
    ensures FreezeHolds(t) && StreamsHold(t) && LockstepHolds(t)
  {
    hide OnSchedule, Derived, Updates, Acks, AllResolved;
    AckExpected(s, update);
    assert t.a.rekeys.pending == map[];
  }

  lemma ReadAckSafe(s: System, t: System)
    requires Live(s) && Invariant(s) && ReadControl(s) == Some(t) && s.ba[0].body.KeyAck?
    ensures Safe(t)
  {
    hide Known, ValidId, Ordinal, NextId, FirstId, KeysOk, PlanOk, OpensOk, LockOk, AcceptsOk, FreezeOk, AckEpochsOk,
      StreamsOk, StreamIdsOk, Chain, UpdatesLabelled, ReaderOk, Lockstep, SetupsOk, ResolutionsOk, ResetsOk, FreshOk,
      UpdateCovered, SetupEpochsOk, AgreeOk, GuardsOk, ResettingOk, BoundariesOk, Announcing, Updates, Acks, Resets,
      ResetsBefore, Boundaries, Frontier;
    var r := Accept(s);
    HeaderAccepted(s, r);
    if r.a.failure.None? {
      PopReads(s.ba);
      ReaderStays(s, r);
      ReadAckKeeps(s, r, t, s.ba[0].body.update);
    }
  }

  // ----- Together -------------------------------------------------------------------

  lemma ReadControlSafe(s: System, t: System)
    requires Live(s) && Invariant(s) && ReadControl(s) == Some(t)
    ensures Safe(t)
  {
    hide Known, ValidId, Ordinal, NextId, FirstId, KeysOk, PlanOk, OpensOk, LockOk, AcceptsOk, FreezeOk, AckEpochsOk,
      StreamsOk, StreamIdsOk, Chain, UpdatesLabelled, ReaderOk, Lockstep, SetupsOk, ResolutionsOk, ResetsOk, FreshOk,
      UpdateCovered, SetupEpochsOk, AgreeOk, GuardsOk, ResettingOk, BoundariesOk, Announcing, Updates, Acks, Resets,
      ResetsBefore, Boundaries, Frontier, Safe, Accept, Dispatch;
    match s.ba[0].body
    case KeyUpdate(_) => ReadUpdateSafe(s, t);
    case KeyAck(_) => ReadAckSafe(s, t);
    case Reset(id) =>
      PopReads(s.ba);
      ResetIdKnown(s, id);
      if Known(s.a.role, id) { ReadOwnResetSafe(s, t, id); } else { ReadPeerResetSafe(s, t, id); }
    case _ => ReadPlainSafe(s, t);
  }
}
