/** What holds in every state of every run of two honest endpoints. */
module SessionTheorems {
  import opened Basics
  import opened Ledgers
  import opened Session
  import opened SessionFrames
  import opened SessionInvariant
  import opened SessionOpening
  import opened SessionAccepting
  import opened SessionPosting
  import opened SessionRekeying
  import opened SessionReading
  import opened SessionAdopting

  // ----- Every step, every run ------------------------------------------------------

  lemma TakeSafe(s: System, step: Step, t: System)
    requires Live(s) && Invariant(s) && Take(s, step) == Some(t)
    ensures Safe(t)
  {
    hide Invariant, Safe, Live, TakeOpener, TakeAcceptor, TakeRekey, TakeControl, TakeGoaway, TakeStream, Post;
    match step
    case OfOpener(opener) => OpenerStepSafe(s, opener, t);
    case OfAcceptor(acceptor) => AcceptorSafe(s, acceptor, t);
    case OfRekey(rekey) => RekeyStepSafe(s, rekey, t);
    case OfControl(control) => ControlStepSafe(s, control, t);
    case OfGoaway(goaway) => GoawayStepSafe(s, goaway, t);
    case OfStream(stream) => StreamStepSafe(s, stream, t);
    case SPing(nonce) => PostPlainSafe(s, Ping(nonce), t);
    case SFail => ExternalFailureSafe(s);
  }

  lemma OpenerStepSafe(s: System, step: OpenerStep, t: System)
    requires Live(s) && Invariant(s) && TakeOpener(s, step) == Some(t)
    ensures Safe(t)
  {
    hide Invariant, Safe, Live, BeginOpen, WriteAbandonReset, MarkFss2;
    match step
    case SBeginOpen =>
      if MarkFss2(s.a.opens.outbound, s.a.opens.nextId).Marked? {
        AllocateSafe(s, t);
      } else {
        ExhaustedOpenSafe(s, t);
      }
    case SWriteAbandonReset(id) => WriteAbandonResetSafe(s, id, t);
    case _ =>
      hide TakeOpener;
      OpenerSafe(s, step, t);
  }

  lemma GoawayStepSafe(s: System, step: GoawayStep, t: System)
    requires Live(s) && Invariant(s) && TakeGoaway(s, step) == Some(t)
    ensures Safe(t)
  {
    hide Invariant, Safe, Live, PostBoundary;
    match step
    case SPostBoundary(closer) => PostBoundarySafe(s, closer, t);
    case _ =>
      hide TakeGoaway;
      NoticeSafe(s, step, t);
  }

  lemma ExternalFailureSafe(s: System)
    requires Live(s)
    ensures Safe(Fail(s, External))
  {
  }

  lemma SwapSafe(s: System)
    ensures Invariant(s) <==> Invariant(Swap(s))
    ensures Safe(s) <==> Safe(Swap(s))
    ensures Live(s) <==> Live(Swap(s))
  {
    hide Half;
    assert Swap(Swap(s)) == s;
  }

  lemma PlaySafe(s: System, move: Move, t: System)
    requires Safe(s) && Play(s, move) == Some(t)
    ensures Safe(t)
  {
    hide Invariant, Take;
    match move
    case ByA(step) => TakeSafe(s, step, t);
    case ByB(step) =>
      SwapSafe(s);
      TakeSafe(Swap(s), step, Take(Swap(s), step).value);
      SwapSafe(t);
      SwapSafe(Swap(t));
  }

  lemma {:induction false} RunSafe(s: System, moves: seq<Move>, t: System)
    requires Safe(s) && PlayAll(s, moves) == Some(t)
    ensures Safe(t)
    decreases |moves|
  {
    hide Safe, Play;
    if moves != [] {
      PlaySafe(s, moves[0], Play(s, moves[0]).value);
      RunSafe(Play(s, moves[0]).value, moves[1..], t);
    }
  }

  /** The state of a run, seen from either endpoint. */
  ghost predicate Occurs(s: System) {
    Reachable(s) || Reachable(Swap(s))
  }

  lemma OccursSafe(s: System)
    requires Occurs(s)
    ensures Safe(s) && Safe(Swap(s))
  {
    hide Safe, PlayAll;
    EstablishedSafe();
    var r := if Reachable(s) then s else Swap(s);
    var moves :| PlayAll(Established(), moves) == Some(r);
    RunSafe(Established(), moves, r);
    SwapSafe(s);
    SwapSafe(Swap(s));
    assert Swap(Swap(s)) == s;
  }

  /** A live state of a run satisfies the invariant from both sides. */
  lemma OccursInvariant(s: System)
    requires Occurs(s) && Live(s)
    ensures Invariant(s) && Invariant(Swap(s))
  {
    hide Invariant, Occurs;
    OccursSafe(s);
  }

  // ----- Going on from a state of a run ---------------------------------------------

  lemma {:induction false} PlayOn(s: System, moves: seq<Move>, t: System, move: Move)
    requires PlayAll(s, moves) == Some(t)
    ensures PlayAll(s, moves + [move]) == Play(t, move)
    decreases |moves|
  {
    hide Play;
    if moves == [] {
      assert moves + [move] == [move] && [move][1..] == [];
    } else {
      assert (moves + [move])[0] == moves[0] && (moves + [move])[1..] == moves[1..] + [move];
      PlayOn(Play(s, moves[0]).value, moves[1..], t, move);
    }
  }

  lemma StepOccurs(s: System, step: Step, t: System)
    requires Occurs(s) && Live(s) && Take(s, step) == Some(t)
    ensures Occurs(t) && Occurs(Swap(t))
  {
    hide PlayAll, Take;
    assert Swap(Swap(t)) == t && Swap(Swap(s)) == s;
    if Reachable(s) {
      var moves :| PlayAll(Established(), moves) == Some(s);
      PlayOn(Established(), moves, s, ByA(step));
    } else {
      var moves :| PlayAll(Established(), moves) == Some(Swap(s));
      PlayOn(Established(), moves, Swap(s), ByB(step));
    }
  }

  lemma {:induction false} RunOccurs(s: System, moves: seq<Move>, t: System)
    requires Occurs(s) && PlayAll(s, moves) == Some(t)
    ensures Occurs(t)
    decreases |moves|
  {
    hide Occurs, Take;
    if moves != [] {
      var u := Play(s, moves[0]).value;
      match moves[0] {
        case ByA(step) => StepOccurs(s, step, u);
        case ByB(step) =>
          SwapOccurs(s);
          StepOccurs(Swap(s), step, Swap(u));
          assert Swap(Swap(u)) == u;
      }
      RunOccurs(u, moves[1..], t);
    }
  }

  lemma SwapOccurs(s: System)
    requires Occurs(s)
    ensures Occurs(Swap(s))
  {
    assert Swap(Swap(s)) == s;
  }

  // ----- Failures -------------------------------------------------------------------

  /** Two honest endpoints never trip the checks on labels, transitions, epochs,
      watermarks, boundaries, ledgers or ACKs. */
  lemma HonestRunsPassChecks(s: System)
    requires Occurs(s)
    ensures s.a.failure.Some? ==>
              s.a.failure.value in {RootsPruned, StaleSetup, GoawayChanged, SequenceExhausted, External}
  {
    hide Occurs, Invariant;
    OccursSafe(s);
  }

  // ----- Watermarks -----------------------------------------------------------------

  /** When the responders have drained, the receiver has resolved exactly the IDs up to
      the announced watermark, so the update is not refused. */
  lemma WatermarkAgreement(s: System)
    requires Occurs(s) && Live(s) && s.a.rekeys.peer.PeerDraining? && Drained(s.a.accepts)
    ensures Frontier(s.a.accepts.ledger) == s.a.rekeys.peer.update.watermark == s.b.opens.highWatermark
    ensures CheckUpdate(s).Some? && CheckUpdate(s).value.a.failure.None?
  {
    hide Known, ValidId, Ordinal, NextId, FirstId, KeysOk, PlanOk, OpensOk, LockOk, AcceptsOk, FreezeOk, AckEpochsOk,
      StreamsOk, StreamIdsOk, Chain, UpdatesLabelled, ReaderOk, Lockstep, SetupsOk, ResolutionsOk, ResetsOk, FreshOk,
      UpdateCovered, SetupEpochsOk, AgreeOk, GuardsOk, ResettingOk, BoundariesOk, Announcing, Updates, Acks, Resets,
      ResetsBefore, Boundaries, Frontier, Occurs, Announces;
    OccursInvariant(s);
    HeldUpdate(s);
    WatermarkReached(s);
    assert CheckUpdate(s).Some?;
    CheckUpdatePasses(s, CheckUpdate(s).value);
    AnnouncedWatermark(s.b.rekeys.local.plan, s.b.keys.sendEpoch, s.b.opens.highWatermark);
  }

  lemma AnnouncedWatermark(p: Plan, sendEpoch: nat, high: nat)
    requires Announces(p, sendEpoch, high)
    ensures p.update.watermark == high && p.update.transition == p.update.nextEpoch == sendEpoch + 1
  {
  }

  // ----- Opening --------------------------------------------------------------------

  /** In every run an open gets an ID that was never used, two above the last one, as long as
      there is one of the 1048576; it is then the high watermark. Otherwise a GOAWAY is due. */
  lemma OpenGetsFreshId(s: System, t: System)
    requires Occurs(s) && Live(s) && BeginOpen(s) == Some(t)
    ensures t.a.failure.None? && t.a.opens.opening.Some? <==> s.a.opens.nextId <= 2_097_152
    ensures t.a.opens.opening.Some? ==>
              var id, high := t.a.opens.opening.value.id, s.a.opens.highWatermark;
              && id == (if high == 0 then (if s.a.role.Client? then 1 else 2) else high + 2)
              && t.a.opens.highWatermark == id && t.a.opens.opening == Some(Opening(id, Allocated, Unchecked))
              && StateOf(s.a.opens.outbound, id) == Unseen && StateOf(t.a.opens.outbound, id) == OpenSeen
    ensures t.a.opens.opening.None? ==>
              t.a.goaways.exhausted == Due && t.a.opens.highWatermark == s.a.opens.highWatermark
  {
    hide Occurs, Frontier, Updates, Acks, Resets, ResetsBefore, Boundaries, Chain;
    OccursInvariant(s);
    OpenerPart(s);
    hide Invariant, Half;
  }

  lemma OpenerPart(s: System)
    requires Invariant(s)
    ensures OpensHold(s)
  {
    hide Known, Frontier, Updates, Acks, Resets, ResetsBefore, Boundaries, Chain, OpensOk;
  }

  // ----- Epochs ---------------------------------------------------------------------

  /** In the direction from `a` to `b` the receiver is level with the sender, or one
      epoch ahead while the sender has not yet switched to a committed update. */
  lemma EpochLockstep(s: System)
    requires Occurs(s) && Live(s)
    ensures s.b.keys.recvEpoch == s.a.keys.sendEpoch
            || (s.b.keys.recvEpoch == s.a.keys.sendEpoch + 1
                && (s.a.rekeys.local.AwaitingAck? || s.a.rekeys.local.Acked?))
    ensures s.a.rekeys.local.Acked? ==> s.b.keys.recvEpoch == s.a.keys.sendEpoch + 1
    ensures s.b.rekeys.recvTransition == s.b.keys.recvEpoch
    ensures s.a.rekeys.local.AwaitingAck? ==>
              var next := s.a.keys.sendEpoch + 1;
              s.a.rekeys.local.plan.update == Update(next, next, s.a.opens.highWatermark)
    ensures Updates(s.ab) + Held(s.b.rekeys.peer) + Acks(s.ba)
            == if s.a.rekeys.local.AwaitingAck? then [s.a.rekeys.local.plan.update] else []
  {
    hide Known, ValidId, Ordinal, NextId, FirstId, KeysOk, PlanOk, OpensOk, LockOk, AcceptsOk, FreezeOk, AckEpochsOk,
      StreamsOk, StreamIdsOk, Chain, UpdatesLabelled, ReaderOk, Lockstep, SetupsOk, ResolutionsOk, ResetsOk, FreshOk,
      UpdateCovered, SetupEpochsOk, AgreeOk, GuardsOk, ResettingOk, BoundariesOk, Announcing, Updates, Acks, Resets,
      ResetsBefore, Boundaries, Frontier, Occurs;
    OccursInvariant(s);
    AheadOnlyWhileOutstanding(s);
    LockstepParts(s);
    TransitionIsEpoch(Swap(s));
  }

  lemma LockstepParts(s: System)
    requires PlanHolds(s) && LockstepHolds(s)
    ensures s.b.keys.recvEpoch == s.a.keys.sendEpoch
            + (if s.a.rekeys.local.Acked? || s.b.rekeys.peer.Adopted? || Acks(s.ba) != [] then 1 else 0)
    ensures s.a.rekeys.local.AwaitingAck? ==>
              var next := s.a.keys.sendEpoch + 1;
              s.a.rekeys.local.plan.update == Update(next, next, s.a.opens.highWatermark)
    ensures Updates(s.ab) + Held(s.b.rekeys.peer) + Acks(s.ba)
            == if s.a.rekeys.local.AwaitingAck? then [s.a.rekeys.local.plan.update] else []
  {
    hide Updates, Acks;
  }

  lemma TransitionIsEpoch(s: System)
    requires PlanHolds(s)
    ensures s.a.rekeys.recvTransition == s.a.keys.recvEpoch
  {
  }

  lemma AheadOnlyWhileOutstanding(s: System)
    requires LockstepHolds(s)
    ensures s.b.rekeys.peer.Adopted? || Acks(s.ba) != [] ==> s.a.rekeys.local.AwaitingAck?
  {
    hide Updates, Acks;
    var all := Updates(s.ab) + Held(s.b.rekeys.peer) + Acks(s.ba);
    assert |all| >= |Held(s.b.rekeys.peer)| + |Acks(s.ba)|;
  }

  // ----- Keys -----------------------------------------------------------------------

  /** Whoever holds roots for an epoch of a direction holds the same ones, and the
      sender always holds those of its own epoch. */
  lemma KeyScheduleAgreement(s: System, e: nat)
    requires Occurs(s) && Live(s)
    ensures e in s.a.keys.sendRoots ==> s.a.keys.sendRoots[e] == Derived(SendDirection(s.a.role), e)
    ensures e in s.b.keys.recvRoots ==> s.b.keys.recvRoots[e] == Derived(SendDirection(s.a.role), e)
    ensures s.a.keys.sendEpoch in s.a.keys.sendRoots
  {
    hide Occurs, Known, Frontier, Updates, Acks, Resets, ResetsBefore, Boundaries, Chain;
    OccursInvariant(s);
    assert Other(s.b.role) == s.a.role;
  }

  /** Outside a rekey a stream can still seal a record exactly when it sends at the
      session's epoch; a stream that closed its writing side before the last rekey does not. */
  lemma StreamCanSealExactlyWhenCurrent(s: System, id: nat)
    requires Occurs(s) && Live(s) && s.a.rekeys.local.Idle? && id in s.a.streams
    ensures s.a.streams[id].sendEpoch in s.a.keys.sendRoots <==> s.a.streams[id].sendEpoch == s.a.keys.sendEpoch
  {
    hide Occurs, Known, Frontier, Updates, Acks, Resets, ResetsBefore, Boundaries, Chain;
    OccursInvariant(s);
  }

  // ----- Streams --------------------------------------------------------------------

  /** Until a rekey commits, every stream that may still send does so at the session's
      epoch, provided that no rekey began while the freeze guard of an older one was alive. */
  lemma StreamsSendAtSessionEpoch(s: System, id: nat)
    requires Occurs(s) && Live(s) && !s.a.guards.overlapped
    requires Uncommitted(s.a.rekeys.local) && id in s.a.streams && Active(s.a.streams[id])
    ensures s.a.streams[id].sendEpoch == s.a.keys.sendEpoch && s.a.streams[id].sendUpdate.None?
  {
    hide Occurs, Known, Frontier, Updates, Acks, Resets, ResetsBefore, Boundaries, Chain;
    OccursInvariant(s);
    StreamFacts(s, id);
  }

  lemma StreamFacts(s: System, id: nat)
    requires StreamsHold(s) && id in s.a.streams
    ensures StreamOk(id, s.a.streams[id], s.a.rekeys.local)
    ensures !s.a.guards.overlapped ==> Coupled(id, s.a.streams[id], s.a.keys.sendEpoch, s.a.rekeys.local)
  {
  }

  /** The plan of a rekey holds exactly the registered streams that may still send. */
  lemma PlanHoldsSenders(s: System, t: System)
    requires Occurs(s) && Live(s) && Prepare(s) == Some(t)
    ensures t.a.failure.None? && t.a.rekeys.local.Prepared? && t.a.rekeys.local.plan.streams <= s.a.streams.Keys
    ensures forall id | id in s.a.streams ::
              id in t.a.rekeys.local.plan.streams <==> !s.a.streams[id].reset && !s.a.streams[id].localFin
  {
    hide Occurs, Known, Frontier, Updates, Acks, Resets, ResetsBefore, Boundaries, Chain;
    OccursInvariant(s);
    PrepareKeeps(s, t);
  }

  lemma PlannedStreamSwitched(s: System, t: System, id: nat)
    requires Occurs(s) && Live(s) && FinishRekey(s) == Some(t) && id in s.a.rekeys.local.plan.streams
    ensures id in t.a.streams && t.a.streams[id].sendEpoch == t.a.keys.sendEpoch && t.a.streams[id].sendUpdate.None?
  {
    hide Occurs, Known, Frontier, Updates, Acks, Resets, ResetsBefore, Boundaries, Chain;
    OccursInvariant(s);
    StreamFacts(s, id);
  }

  /** Whatever happens between the preparation of a rekey and its end: every stream that was
      registered at the preparation and might still send then sends at the new epoch. */
  lemma FinishedRekeySwitchesStreams(s: System, c: System, moves: seq<Move>, r: System, t: System, id: nat)
    requires Occurs(s) && Live(s) && Prepare(s) == Some(c) && id in s.a.streams
    requires PlayAll(c, moves) == Some(r) && Live(r) && r.a.rekeys.local == Switched(c.a.rekeys.local.plan)
    requires FinishRekey(r) == Some(t)
    ensures t.a.keys.sendEpoch == c.a.keys.sendEpoch + 1
    ensures !s.a.streams[id].reset && !s.a.streams[id].localFin ==>
              id in t.a.streams && t.a.streams[id].sendEpoch == t.a.keys.sendEpoch && t.a.streams[id].sendUpdate.None?
  {
    hide Occurs, PlayAll, Invariant, Live, Prepare, FinishRekey;
    PlanHoldsSenders(s, c);
    assert Take(s, OfRekey(SPrepare)) == Some(c);
    StepOccurs(s, OfRekey(SPrepare), c);
    RunOccurs(c, moves, r);
    RekeyMovesOn(s, c, r, t);
    if !s.a.streams[id].reset && !s.a.streams[id].localFin {
      PlannedStreamSwitched(r, t, id);
    }
  }

  lemma RekeyMovesOn(s: System, c: System, r: System, t: System)
    requires Occurs(s) && Live(s) && Prepare(s) == Some(c) && c.a.rekeys.local.Prepared?
    requires Occurs(r) && Live(r) && r.a.rekeys.local == Switched(c.a.rekeys.local.plan) && FinishRekey(r) == Some(t)
    ensures t.a.keys.sendEpoch == c.a.keys.sendEpoch + 1
  {
    hide Occurs, Known, Frontier, Updates, Acks, Resets, ResetsBefore, Boundaries, Chain;
    OccursInvariant(r);
    assert PlanHolds(r);
  }

  /** The check of the peer's update takes as its snapshot exactly the registered streams that
      may still receive. */
  lemma SnapshotHoldsReceivers(s: System, t: System)
    requires Occurs(s) && Live(s) && CheckUpdate(s) == Some(t)
    ensures t.a.failure.None? && t.a.rekeys.peer.AwaitingStreams? && t.a.rekeys.peer.streams <= s.a.streams.Keys
    ensures forall id | id in s.a.streams ::
              id in t.a.rekeys.peer.streams <==> !s.a.streams[id].reset && !s.a.streams[id].remoteFin
  {
    hide Occurs, Invariant, PlanHolds, OpensHold, KeysHold, AcceptsHold, LockstepHolds, SetupsHold, CoverHolds;
    OccursInvariant(s);
    UpdateParts(s);
    CheckUpdatePasses(s, t);
    SnapshotTaken(s, t);
  }

  lemma UpdateParts(s: System)
    requires Invariant(s)
    ensures KeysHold(s) && PlanHolds(s) && AcceptsHold(s) && s.b.role == Other(s.a.role)
    ensures PlanHolds(Swap(s)) && OpensHold(Swap(s)) && LockstepHolds(Swap(s))
    ensures SetupsHold(Swap(s)) && CoverHolds(Swap(s))
  {
    hide PlanHolds, OpensHold, KeysHold, AcceptsHold, LockstepHolds, SetupsHold, CoverHolds;
  }

  lemma SnapshotTaken(s: System, t: System)
    requires CheckUpdate(s) == Some(t) && t.a.rekeys.peer.AwaitingStreams?
    ensures t.a.rekeys.peer.streams <= s.a.streams.Keys
    ensures forall id | id in s.a.streams ::
              id in t.a.rekeys.peer.streams <==> !s.a.streams[id].reset && !s.a.streams[id].remoteFin
  {
    hide Frontier;
  }

  /** Whatever happens between the check of the peer's update and its adoption: every stream
      that was registered at the check then receives at the new epoch and is ready for the next
      update, or has seen FIN, or was already reset when the update was checked. */
  lemma AdoptedUpdateReachesStreams(s: System, c: System, moves: seq<Move>, r: System, t: System, id: nat)
    requires Occurs(s) && Live(s) && CheckUpdate(s) == Some(c) && id in s.a.streams
    requires PlayAll(c, moves) == Some(r) && Live(r) && r.a.rekeys.peer == c.a.rekeys.peer && AdoptUpdate(r) == Some(t)
    ensures t.a.keys.recvEpoch == c.a.keys.recvEpoch + 1
    ensures || s.a.streams[id].reset || s.a.streams[id].remoteFin
            || (id in t.a.streams
                && (|| t.a.streams[id].remoteFin
                    || (t.a.streams[id].recvEpoch == t.a.keys.recvEpoch && t.a.streams[id].recvUpdate.None?)))
  {
    hide Occurs, PlayAll, Invariant, Live, CheckUpdate, AdoptUpdate;
    SnapshotHoldsReceivers(s, c);
    assert Take(s, OfControl(SCheckUpdate)) == Some(c);
    StepOccurs(s, OfControl(SCheckUpdate), c);
    RunOccurs(c, moves, r);
    AdoptionMovesOn(s, c, r, t);
    if !s.a.streams[id].reset && !s.a.streams[id].remoteFin {
      SnapshotReceives(r, t, id);
    }
  }

  lemma AdoptionMovesOn(s: System, c: System, r: System, t: System)
    requires Occurs(s) && Live(s) && CheckUpdate(s) == Some(c) && r.a.rekeys.peer == c.a.rekeys.peer
    requires AdoptUpdate(r) == Some(t)
    ensures t.a.keys.recvEpoch == c.a.keys.recvEpoch + 1
  {
    hide Occurs, Known, Frontier, Updates, Acks, Resets, ResetsBefore, Boundaries, Chain;
    OccursInvariant(s);
    CheckUpdatePasses(s, c);
  }

  lemma SnapshotReceives(s: System, t: System, id: nat)
    requires Occurs(s) && Live(s) && AdoptUpdate(s) == Some(t) && id in s.a.rekeys.peer.streams
    ensures id in t.a.streams
    ensures t.a.streams[id].remoteFin
            || (t.a.streams[id].recvEpoch == t.a.keys.recvEpoch && t.a.streams[id].recvUpdate.None?)
  {
    hide Occurs, Known, Frontier, Updates, Acks, Resets, ResetsBefore, Boundaries, Chain;
    OccursInvariant(s);
    StreamFacts(s, id);
  }

  // ----- Setup ----------------------------------------------------------------------

  /** When an opener registers a stream, it sends at the epoch at which the acceptor set
      the same stream up to receive, and receives at the epoch of the acceptor's sending. */
  lemma OpenedStreamAgrees(s: System, t: System)
    requires Occurs(s) && Live(s) && RegisterOpened(s) == Some(t)
    ensures var id := s.a.opens.opening.value.id;
            && id in t.a.streams && id in s.b.accepts.fixed
            && s.b.accepts.fixed[id] == Fixed(t.a.streams[id].sendEpoch, t.a.streams[id].recvEpoch)
  {
    hide Occurs, Known, Frontier, Updates, Acks, Resets, ResetsBefore, Boundaries, Chain;
    OccursInvariant(s);
    assert AgreeHold(s);
  }

  /** The acceptor registers the stream at just those epochs. */
  lemma AcceptedStreamAgrees(s: System, id: nat, t: System)
    requires Occurs(s) && Live(s) && RegisterAccepted(s, id) == Some(t)
    ensures id in t.a.streams && id in s.a.accepts.fixed
    ensures s.a.accepts.fixed[id] == Fixed(t.a.streams[id].recvEpoch, t.a.streams[id].sendEpoch)
  {
    hide Occurs, Known, Frontier, Updates, Acks, Resets, ResetsBefore, Boundaries, Chain;
    OccursInvariant(s);
    assert AgreeHold(Swap(s));
  }

  // ----- The control stream ---------------------------------------------------------

  /** The next control record is refused exactly when the reader has pruned its roots. */
  lemma ControlRefusedExactlyWhenPruned(s: System)
    requires Occurs(s) && Live(s) && s.ba != []
    ensures Accept(s).a.failure.Some? <==> s.ba[0].epoch !in s.a.keys.recvRoots
  {
    hide Occurs, Known, Frontier, Updates, Acks, Resets, ResetsBefore, Boundaries, Chain;
    OccursInvariant(s);
    HeaderAccepted(s, Accept(s));
  }

  /** A GOAWAY that can be read is refused exactly when it changes an earlier boundary,
      so the first one never is. */
  lemma GoAwayRefusedExactlyWhenChanged(s: System, last: nat)
    requires Occurs(s) && Live(s) && s.ba != [] && s.a.rekeys.peer.Listening?
    requires s.ba[0].body == GoAway(last) && s.ba[0].epoch in s.a.keys.recvRoots
    ensures ReadControl(s).value.a.failure.Some? <==>
            s.a.goaways.received.Some? && s.a.goaways.received.value != last
    ensures ReadControl(s).value.a.failure.None? ==> ReadControl(s).value.a.goaways.received == Some(last)
  {
    hide Occurs, Known, Frontier, Updates, Acks, Resets, ResetsBefore, Boundaries, Chain;
    OccursInvariant(s);
    HeaderAccepted(s, Accept(s));
    PopReads(s.ba);
    BoundaryAccepted(s, last);
  }

  // ----- Late prefaces --------------------------------------------------------------

  /** A preface fails the session exactly when its epoch has passed; the peer has then
      already announced that it abandoned the stream. */
  lemma StaleSetupIsAbandoned(s: System, id: nat, t: System)
    requires Occurs(s) && Live(s) && ReadSetup(s, id) == Some(t)
    ensures t.a.failure.Some? <==> CarrierOf(s.carriers, id).setup.value != s.a.keys.recvEpoch
    ensures t.a.failure.Some? ==> StateOf(s.a.accepts.ledger, id) == AbandonedNoFss2
  {
    hide Occurs, Known, Frontier, Updates, Acks, Resets, ResetsBefore, Boundaries, Chain;
    OccursInvariant(s);
    assert Known(s.b.role, id);
  }

  /** A preface that passed its checks uses up its ID, and is served exactly when the ID
      has not been abandoned in the meantime. */
  lemma CheckedSetupUsesItsId(s: System, id: nat, t: System)
    requires Occurs(s) && Live(s) && MarkSetup(s, id) == Some(t)
    ensures t.a.failure.None?
    ensures StateOf(s.a.accepts.ledger, id) == Unseen <==> id in t.a.accepts.serving
    ensures StateOf(t.a.accepts.ledger, id) == if id in t.a.accepts.serving then OpenSeen else UsedOrTerminal
  {
    hide Occurs, Known, Frontier, Updates, Acks, Resets, ResetsBefore, Boundaries, Chain;
    OccursInvariant(s);
    SetupNeverRefused(s, t, id);
    assert AcceptsHold(s);
  }

  // ----- Crossing rekeys ------------------------------------------------------------

  /** The endpoint can open records of its receive epoch, and of the one it is about to adopt. */
  predicate ReceiveRootsHeld(e: Endpoint) {
    && e.keys.recvEpoch in e.keys.recvRoots
    && (e.rekeys.peer.AwaitingStreams? ==> e.rekeys.peer.update.nextEpoch in e.keys.recvRoots)
  }

  predicate SameReceive(e: Endpoint, f: Endpoint) {
    && f.keys.recvEpoch == e.keys.recvEpoch && f.keys.recvRoots == e.keys.recvRoots
    && (f.rekeys.peer == e.rekeys.peer || !f.rekeys.peer.AwaitingStreams?)
  }

  // The steps that add or drop receive roots, or move the receive epoch.
  predicate ReceiveStep(step: Step) {
    || step == OfRekey(SFinishRekey)
    || step == OfControl(SCheckUpdate) || step == OfControl(SAdoptUpdate) || step == OfControl(SFinishPeerRekey)
    || (step.OfStream? && step.stream.SReadStreamUpdate?)
  }

  predicate Answers(step: Step) {
    step.OfAcceptor? && step.acceptor.SWriteOpenAck?
  }

  // All steps that do not touch the receive keys.
  lemma StepsKeepReceive(s: System, step: Step, t: System)
    requires !ReceiveStep(step) && Take(s, step) == Some(t)
    ensures SameReceive(s.a, t.a)
    ensures Answers(step) || t.a.accepts.fixed == s.a.accepts.fixed
  {
    hide TakeOpener, TakeAcceptor, TakeRekey, TakeGoaway, TakeStream, ReadControl, WriteKeyAck;
    match step
    case OfOpener(opener) => OpenerTouches(s, opener, t);
    case OfAcceptor(acceptor) => AcceptorTouches(s, acceptor, t);
    case OfRekey(rekey) => RekeyTouches(s, rekey, t);
    case OfControl(control) => if control.SReadControl? { ReadTouches(s, t); } else { PeerRekeyTouches(s, control, t); }
    case OfGoaway(goaway) => GoawayTouches(s, goaway, t);
    case OfStream(stream) => StreamTouches(s, stream, t);
    case _ => OtherTouches(s, step, t);
  }

  lemma ReceiveStepsLoseExactly(s: System, step: Step, t: System)
    requires ReceiveStep(step) && ReceiveRootsHeld(s.a) && Take(s, step) == Some(t) && t.a.failure.None?
    requires s.a.rekeys.peer.AwaitingStreams? ==> s.a.rekeys.peer.update.nextEpoch == s.a.keys.recvEpoch + 1
    ensures ReceiveRootsHeld(t.a) <==> !(step == OfRekey(SFinishRekey) && s.a.rekeys.peer.AwaitingStreams?)
  {
    hide Frontier, ActiveReceive, ClearUpdates, StreamsUpdated, StreamsSwitched;
  }

  /** The receive roots are lost at exactly one kind of step: a local rekey that ends
      between the check of the peer's update and its adoption. */
  lemma ReceiveRootsLostExactly(s: System, step: Step, t: System)
    requires Occurs(s) && Live(s) && ReceiveRootsHeld(s.a) && Take(s, step) == Some(t) && t.a.failure.None?
    ensures ReceiveRootsHeld(t.a) <==> !(step == OfRekey(SFinishRekey) && s.a.rekeys.peer.AwaitingStreams?)
  {
    hide Occurs, Invariant, Live, Take;
    if ReceiveStep(step) {
      if s.a.rekeys.peer.AwaitingStreams? {
        OccursInvariant(s);
        PendingIsNext(s);
      }
      ReceiveStepsLoseExactly(s, step, t);
    } else {
      StepsKeepReceive(s, step, t);
    }
  }

  /** Receive roots are dropped only at the end of a rekey: of the local one always, of the
      peer's only if the flag of an active local one was down when it looked. Only those of other epochs go. */
  lemma RootsDroppedExactly(s: System, step: Step, t: System, e: nat)
    requires Take(s, step) == Some(t) && e in s.a.keys.recvRoots
    ensures e !in t.a.keys.recvRoots <==>
            && e != s.a.keys.recvEpoch
            && (|| step == OfRekey(SFinishRekey)
                || (step == OfControl(SFinishPeerRekey) && s.a.rekeys.peer == Pruning(false)))
  {
    if ReceiveStep(step) {
      hide Frontier, ActiveReceive, ClearUpdates, StreamsUpdated, StreamsSwitched;
    } else {
      hide Take;
      StepsKeepReceive(s, step, t);
    }
  }

  /** What an acceptor fixed for a stream stays as it is. */
  lemma FixedForGood(s: System, step: Step, t: System, id: nat)
    requires Occurs(s) && Live(s) && Take(s, step) == Some(t) && id in s.a.accepts.fixed
    ensures id in t.a.accepts.fixed && t.a.accepts.fixed[id] == s.a.accepts.fixed[id]
  {
    assert Answers(step) ==> WriteOpenAck(s, step.acceptor.id) == Some(t);
    hide Occurs, Invariant, Live, Take, WriteOpenAck;
    if ReceiveStep(step) {
      ReceiveStepsKeepFixed(s, step, t);
    } else if Answers(step) {
      OccursInvariant(s);
      AgreePart(s);
      AnsweredOnce(s, step.acceptor.id, t);
    } else {
      StepsKeepReceive(s, step, t);
    }
  }

  lemma AnsweredOnce(s: System, id: nat, t: System)
    requires AgreeHold(Swap(s)) && WriteOpenAck(s, id) == Some(t)
    ensures id !in s.a.accepts.fixed && t.a.accepts.fixed.Keys == s.a.accepts.fixed.Keys + {id}
    ensures forall i | i in s.a.accepts.fixed :: t.a.accepts.fixed[i] == s.a.accepts.fixed[i]
  {
    hide Known;
  }

  lemma AgreePart(s: System)
    requires Invariant(s)
    ensures AgreeHold(Swap(s))
  {
    hide AgreeHold;
  }

  lemma ReceiveStepsKeepFixed(s: System, step: Step, t: System)
    requires ReceiveStep(step) && Take(s, step) == Some(t)
    ensures t.a.accepts == s.a.accepts
  {
    hide Frontier, ActiveReceive, ClearUpdates, StreamsUpdated, StreamsSwitched, Retain;
  }

  lemma PendingIsNext(s: System)
    requires Invariant(s) && s.a.rekeys.peer.AwaitingStreams?
    ensures s.a.rekeys.peer.update.nextEpoch == s.a.keys.recvEpoch + 1
  {
    hide Known, Frontier, Resets, ResetsBefore, Boundaries, Chain, Updates, Acks;
    HeldUpdate(s);
  }
}
