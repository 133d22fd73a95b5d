/** What GOAWAY means for both endpoints: the boundary an opener has been told is one up
    to which the acceptor has resolved every stream. Past it, streams are opened or served
    exactly where a check came before the boundary. */
module SessionGoaways {
  import opened Basics
  import opened Ledgers
  import opened Session
  import opened SessionFrames
  import opened SessionInvariant
  import opened SessionOpening
  import opened SessionAccepting
  import opened SessionPosting
  import opened SessionReading
  import opened SessionRekeying
  import opened SessionAdopting
  import opened SessionTheorems

  /** A responder that saw a boundary was let through by it. */
  ghost predicate SeenWithin(serving: map<nat, Responder>, f: nat) {
    forall id | id in serving && serving[id].Checked? && serving[id].seen.Some? :: id <= serving[id].seen.value <= f
  }

  // What `a` has announced as acceptor, is announcing, and what `b` has taken in.
  ghost predicate BoundariesSettled(s: System) {
    var f := Frontier(s.a.accepts.ledger);
    && (s.a.goaways.sent.Some? ==> s.a.goaways.sent.value <= f)
    && (forall last | last in Boundaries(s.ab) + Announcing(s.a.goaways) :: last <= f)
    && (s.b.goaways.received.Some? ==> s.b.goaways.received.value <= f)
    && SeenWithin(s.a.accepts.serving, f)
  }

  /** What a step of `a` may do to boundaries: the frontier only rises, a boundary is
      announced at the frontier and stored as announced, one is taken in from those
      announced, and a preface passes only the boundary that is stored. */
  ghost predicate Moves(s: System, t: System) {
    && t.b == s.b
    && Frontier(s.a.accepts.ledger) <= Frontier(t.a.accepts.ledger)
    && (forall last | last in Boundaries(t.ab) + Announcing(t.a.goaways) ::
          last in Boundaries(s.ab) + Announcing(s.a.goaways) || last == Frontier(s.a.accepts.ledger))
    && Boundaries(t.ba) <= Boundaries(s.ba)
    && (t.a.goaways.sent == s.a.goaways.sent
        || (t.a.goaways.sent.Some? && t.a.goaways.sent.value in Announcing(s.a.goaways)))
    && (t.a.goaways.received == s.a.goaways.received
        || (t.a.goaways.received.Some? && t.a.goaways.received.value in Boundaries(s.ba)))
    && Passes(s.a.accepts.serving, t.a.accepts.serving, s.a.goaways.sent)
  }

  ghost predicate Passes(before: map<nat, Responder>, after: map<nat, Responder>, sent: Option<nat>) {
    forall id | id in after && after[id].Checked? && after[id].seen.Some? ::
      (id in before && before[id] == after[id]) || (after[id].seen == sent && id <= sent.value)
  }

  lemma MovesKeepSettled(s: System, t: System)
    requires Moves(s, t) && BoundariesSettled(s) && BoundariesSettled(Swap(s))
    ensures BoundariesSettled(t) && BoundariesSettled(Swap(t))
  {
    hide Frontier, Boundaries, Announcing;
  }

  // ----- Every step -----------------------------------------------------------------

  predicate SameBoundaries(s: System, t: System) {
    && t.b == s.b && t.ab == s.ab && t.ba == s.ba
    && t.a.goaways == s.a.goaways && t.a.accepts.ledger == s.a.accepts.ledger
    && t.a.accepts.serving == s.a.accepts.serving
  }

  lemma SameMoves(s: System, t: System)
    requires SameBoundaries(s, t)
    ensures Moves(s, t)
  {
  }

  lemma PostMoves(s: System, body: Body, t: System)
    requires t.b == s.b && t.ba == s.ba && t.a.accepts == s.a.accepts
    requires Boundaries(t.ab) == if body.GoAway? then Boundaries(s.ab) + {body.last} else Boundaries(s.ab)
    requires if body.GoAway?
             then body.last in Announcing(s.a.goaways) && Announcing(t.a.goaways) <= Announcing(s.a.goaways)
             else Announcing(t.a.goaways) == Announcing(s.a.goaways)
    requires t.a.goaways.sent == s.a.goaways.sent && t.a.goaways.received == s.a.goaways.received
    ensures Moves(s, t)
  {
    hide Frontier, Boundaries, Announcing;
  }

  lemma LedgerMoves(s: System, t: System)
    requires t.b == s.b && t.ab == s.ab && t.ba == s.ba && t.a.goaways == s.a.goaways
    requires Frontier(s.a.accepts.ledger) <= Frontier(t.a.accepts.ledger)
    requires Passes(s.a.accepts.serving, t.a.accepts.serving, s.a.goaways.sent)
    ensures Moves(s, t)
  {
    hide Frontier, Boundaries;
  }

  lemma OpenerMoves(s: System, step: OpenerStep, t: System)
    requires TakeOpener(s, step) == Some(t) && s.a.failure.None? && t.a.failure.None?
    ensures Moves(s, t)
  {
    assert step.SBeginOpen? ==>
        && Announcing(t.a.goaways) <= Announcing(s.a.goaways)
        && t.a.goaways.sent == s.a.goaways.sent && t.a.goaways.received == s.a.goaways.received by { hide MarkFss2; }
    assert step.SWriteAbandonReset? ==>
        t == Post(WithOpens(s, s.a.opens.(leaving := s.a.opens.leaving[step.id := true])), Reset(step.id));
    hide TakeOpener, Moves, Post, Frontier, Boundaries, Announcing;
    OpenerTouches(s, step, t);
    if step.SWriteAbandonReset? {
      PostReads(WithOpens(s, s.a.opens.(leaving := s.a.opens.leaving[step.id := true])), Reset(step.id), t);
      PostMoves(s, Reset(step.id), t);
    } else {
      FewerMoves(s, t);
    }
  }

  lemma FewerMoves(s: System, t: System)
    requires t.b == s.b && t.ab == s.ab && t.ba == s.ba && t.a.accepts == s.a.accepts
    requires Announcing(t.a.goaways) <= Announcing(s.a.goaways)
    requires t.a.goaways.sent == s.a.goaways.sent && t.a.goaways.received == s.a.goaways.received
    ensures Moves(s, t)
  {
    hide Frontier, Boundaries, Announcing;
  }

  lemma AcceptorMoves(s: System, step: AcceptorStep, t: System)
    requires TakeAcceptor(s, step) == Some(t) && t.a.failure.None?
    ensures Moves(s, t)
  {
    hide Moves, Frontier;
    AcceptorTouches(s, step, t);
    AcceptorPasses(s, step, t);
    if step.SMarkSetup? || step.SMarkAccepted? {
      MarkingRaises(s, step, t);
    }
    LedgerMoves(s, t);
  }

  lemma AcceptorPasses(s: System, step: AcceptorStep, t: System)
    requires TakeAcceptor(s, step) == Some(t) && t.a.failure.None?
    ensures Passes(s.a.accepts.serving, t.a.accepts.serving, s.a.goaways.sent)
  {
    hide MarkFss2, MarkLateFss2, MarkTerminal, ValidId, StateOf;
  }

  lemma MarkingRaises(s: System, step: AcceptorStep, t: System)
    requires (step.SMarkSetup? || step.SMarkAccepted?) && TakeAcceptor(s, step) == Some(t)
    ensures Frontier(s.a.accepts.ledger) <= Frontier(t.a.accepts.ledger)
  {
    hide Frontier, Known, ValidId, StateOf, MarkFss2, MarkLateFss2, MarkTerminal;
    var l := s.a.accepts.ledger;
    OneSlotForward(l, Fss2(step.id), 0);
    OneSlotForward(l, LateFss2(step.id), 0);
    OneSlotForward(l, Terminal(step.id), 0);
  }

  lemma RekeyMoves(s: System, step: RekeyStep, t: System)
    requires TakeRekey(s, step) == Some(t) && s.a.failure.None? && t.a.failure.None?
    ensures Moves(s, t)
  {
    assert step.SWriteKeyUpdate? ==>
        t == Post(WithLocal(s, AwaitingAck(s.a.rekeys.local.plan)), KeyUpdate(s.a.rekeys.local.plan.update));
    hide TakeRekey, Moves, Post, Frontier, Boundaries;
    RekeyTouches(s, step, t);
    if step.SWriteKeyUpdate? {
      var p := s.a.rekeys.local.plan;
      PostReads(WithLocal(s, AwaitingAck(p)), KeyUpdate(p.update), t);
      PostMoves(s, KeyUpdate(p.update), t);
    } else {
      SameMoves(s, t);
    }
  }

  lemma PeerRekeyMoves(s: System, step: ControlStep, t: System)
    requires !step.SReadControl? && TakeControl(s, step) == Some(t) && s.a.failure.None? && t.a.failure.None?
    ensures Moves(s, t)
  {
    assert step.SWriteKeyAck? ==>
        t == Post(WithRekeys(s, s.a.rekeys.(peer := Acknowledged)), KeyAck(s.a.rekeys.peer.update));
    hide TakeControl, Moves, Post, Frontier, Boundaries;
    PeerRekeyTouches(s, step, t);
    if step.SWriteKeyAck? {
      PostReads(WithRekeys(s, s.a.rekeys.(peer := Acknowledged)), KeyAck(s.a.rekeys.peer.update), t);
      PostMoves(s, KeyAck(s.a.rekeys.peer.update), t);
    } else {
      SameMoves(s, t);
    }
  }

  lemma GoawayMoves(s: System, step: GoawayStep, t: System)
    requires TakeGoaway(s, step) == Some(t) && s.a.failure.None? && t.a.failure.None?
    ensures Moves(s, t)
  {
    hide Frontier, Boundaries, Post;
    GoawayTouches(s, step, t);
    if step.SPostBoundary? {
      hide Moves;
      var last := NoticeOf(s.a.goaways, step.closer).last;
      PostReads(WithGoaways(s, WithNotice(s.a.goaways, step.closer, Quiet)), GoAway(last), t);
      PostMoves(s, GoAway(last), t);
    }
  }

  lemma StreamMoves(s: System, step: StreamStep, t: System)
    requires TakeStream(s, step) == Some(t) && s.a.failure.None? && t.a.failure.None?
    ensures Moves(s, t)
  {
    assert step.SWriteReset? ==> t == Post(WithResetting(s, s.a.resetting - {step.id}), Reset(step.id));
    hide TakeStream, Moves, Post, Frontier, Boundaries;
    StreamTouches(s, step, t);
    if step.SWriteReset? {
      PostReads(WithResetting(s, s.a.resetting - {step.id}), Reset(step.id), t);
      PostMoves(s, Reset(step.id), t);
    } else {
      SameMoves(s, t);
    }
  }

  // Reading a record takes it off the channel and hands its body on.
  lemma ReadingPops(s: System, t: System)
    requires ReadControl(s) == Some(t) && t.a.failure.None?
    ensures s.ba != [] && Accept(s).a.failure.None? && t == Dispatch(Accept(s), s.ba[0].body)
    ensures Accept(s) == s.(a := s.a.(labels := Accept(s).a.labels), ba := s.ba[1..])
  {
    hide Dispatch;
  }

  lemma DispatchMoves(r: System, body: Body, t: System)
    requires t == Dispatch(r, body) && r.a.failure.None? && t.a.failure.None? && !body.GoAway?
    ensures Moves(r, t)
  {
    hide Moves, Post, ReceiveReset, Boundaries;
    match body
    case Ping(nonce) =>
      PostReads(r, Pong(nonce), t);
      PostMoves(r, Pong(nonce), t);
    case Reset(id) => ResetMoves(r, id, t);
    case _ => SameMoves(r, t);
  }

  lemma ResetMoves(r: System, id: nat, t: System)
    requires t == ReceiveReset(r, id) && t.a.failure.None?
    ensures Moves(r, t)
  {
    hide Frontier, Boundaries, Known, MarkPeerReset, Moves;
    OneSlotForward(r.a.accepts.ledger, PeerReset(id), 0);
    LedgerMoves(r, t);
  }

  lemma GoAwayReadMoves(s: System, r: System, t: System)
    requires s.ba != [] && s.ba[0].body.GoAway? && r == s.(a := s.a.(labels := r.a.labels), ba := s.ba[1..])
    requires t == ReceiveGoAway(r, s.ba[0].body.last) && t.a.failure.None?
    ensures Moves(s, t)
  {
    hide Frontier, Boundaries, ValidBoundary;
    PopReads(s.ba);
  }

  lemma PoppedMoves(s: System, r: System, t: System)
    requires r == s.(a := s.a.(labels := r.a.labels), ba := r.ba) && Boundaries(r.ba) <= Boundaries(s.ba) && Moves(r, t)
    ensures Moves(s, t)
  {
    hide Frontier, Boundaries, Announcing;
  }

  lemma ReadingMoves(s: System, t: System)
    requires ReadControl(s) == Some(t) && s.a.failure.None? && t.a.failure.None?
    ensures Moves(s, t)
  {
    ReadingPops(s, t);
    if s.ba[0].body.GoAway? {
      hide ReadControl, Accept, Moves;
      GoAwayReadMoves(s, Accept(s), t);
    } else {
      hide ReadControl, Accept, Dispatch, Moves, Boundaries;
      DispatchMoves(Accept(s), s.ba[0].body, t);
      PopReads(s.ba);
      PoppedMoves(s, Accept(s), t);
    }
  }

  lemma StepMoves(s: System, step: Step, t: System)
    requires Live(s) && Take(s, step) == Some(t) && t.a.failure.None?
    ensures Moves(s, t)
  {
    hide TakeOpener, TakeAcceptor, TakeRekey, TakeGoaway, TakeStream, ReadControl, CheckUpdate, AdoptUpdate,
      WriteKeyAck, FinishPeerRekey, Moves, Post, Boundaries;
    match step
    case OfOpener(opener) => OpenerMoves(s, opener, t);
    case OfAcceptor(acceptor) => AcceptorMoves(s, acceptor, t);
    case OfRekey(rekey) => RekeyMoves(s, rekey, t);
    case OfControl(control) => if control.SReadControl? { ReadingMoves(s, t); } else { PeerRekeyMoves(s, control, t); }
    case OfGoaway(goaway) => GoawayMoves(s, goaway, t);
    case OfStream(stream) => StreamMoves(s, stream, t);
    case SPing(nonce) =>
      PostReads(s, Ping(nonce), t);
      PostMoves(s, Ping(nonce), t);
  }

  // ----- Every run ------------------------------------------------------------------

  lemma {:induction false} RunKeepsSettled(s: System, moves: seq<Move>, t: System)
    requires BoundariesSettled(s) && BoundariesSettled(Swap(s)) && PlayAll(s, moves) == Some(t) && Live(t)
    ensures BoundariesSettled(t) && BoundariesSettled(Swap(t))
    decreases |moves|
  {
    hide BoundariesSettled, Take, Moves;
    if moves != [] {
      var u := Play(s, moves[0]).value;
      assert Live(u) by {
        if moves[1..] != [] {
          assert Play(u, moves[1..][0]).Some?;
        }
      }
      match moves[0] {
        case ByA(step) =>
          StepMoves(s, step, u);
          MovesKeepSettled(s, u);
        case ByB(step) =>
          StepMoves(Swap(s), step, Swap(u));
          assert Swap(Swap(s)) == s && Swap(Swap(u)) == u;
          MovesKeepSettled(Swap(s), Swap(u));
      }
      RunKeepsSettled(u, moves[1..], t);
    }
  }

  lemma OccursSettled(s: System)
    requires Occurs(s) && Live(s)
    ensures BoundariesSettled(s) && BoundariesSettled(Swap(s))
  {
    hide BoundariesSettled, PlayAll;
    assert BoundariesSettled(Established()) && BoundariesSettled(Swap(Established())) by { NothingAnnounced(); }
    var r := if Reachable(s) then s else Swap(s);
    var moves :| PlayAll(Established(), moves) == Some(r);
    RunKeepsSettled(Established(), moves, r);
    assert Swap(Swap(s)) == s;
  }

  lemma NothingAnnounced()
    ensures BoundariesSettled(Established()) && BoundariesSettled(Swap(Established()))
  {
    hide Frontier;
  }

  /** An opener that has been told a boundary may rely on it: the acceptor has resolved
      every stream up to it. */
  lemma GoAwayCoversStreams(s: System, last: nat, id: nat)
    requires Occurs(s) && Live(s) && s.a.goaways.received == Some(last)
    requires Known(s.a.role, id) && id <= last
    ensures Settled(s.b.accepts.ledger, id)
  {
    hide Occurs, Boundaries, Updates, Acks, Resets, ResetsBefore, Chain;
    OccursSettled(s);
    OccursInvariant(s);
    FrontierIsMaximal(s.b.accepts.ledger, 0);
  }

  // ----- What an acceptor serves after GOAWAY ---------------------------------------

  /** The responder for `id` has marked the ID and goes on to serve the stream. */
  predicate Serves(c: Accepts, id: nat) {
    id in c.serving && !c.serving[id].Checked?
  }

  /** The responder for `id` passed its checks when no boundary was stored, and the ID
      has not been abandoned since. */
  predicate PassedBefore(c: Accepts, id: nat) {
    && id in c.serving && c.serving[id].Checked? && c.serving[id].seen.None?
    && StateOf(c.ledger, id) == Unseen
  }

  /** After GOAWAY a stream begins to be served exactly when its responder had passed the
      check before the boundary was stored; and no further responder gets that far. */
  lemma ServedAfterGoAwayExactly(s: System, step: Step, t: System, id: nat)
    requires Occurs(s) && Live(s) && Take(s, step) == Some(t) && t.a.failure.None? && s.a.goaways.sent.Some?
    ensures Serves(t.a.accepts, id) && !Serves(s.a.accepts, id) <==>
            step == OfAcceptor(SMarkSetup(id)) && PassedBefore(s.a.accepts, id)
    ensures PassedBefore(t.a.accepts, id) ==> PassedBefore(s.a.accepts, id)
  {
    hide Occurs, Invariant, BoundariesSettled, AcceptsHold, TakeAcceptor, Frontier;
    if step.OfAcceptor? {
      OccursSettled(s);
      OccursInvariant(s);
      AcceptsPart(s);
      AcceptorServes(s, step.acceptor, t, id);
    } else {
      RespondersKept(s, step, t);
    }
  }

  lemma AcceptsPart(s: System)
    requires Invariant(s)
    ensures AcceptsHold(s)
  {
    hide AcceptsHold;
  }

  // Only an acceptor's own steps, and resets, touch what it serves.
  lemma RespondersKept(s: System, step: Step, t: System)
    requires Live(s) && Take(s, step) == Some(t) && t.a.failure.None? && !step.OfAcceptor?
    ensures t.a.accepts.serving == s.a.accepts.serving
    ensures forall id: nat | StateOf(t.a.accepts.ledger, id) == Unseen :: StateOf(s.a.accepts.ledger, id) == Unseen
  {
    hide TakeOpener, TakeRekey, TakeGoaway, TakeStream, ReadControl, CheckUpdate, AdoptUpdate, WriteKeyAck,
      FinishPeerRekey, Post;
    match step
    case OfOpener(opener) => OpenerTouches(s, opener, t);
    case OfRekey(rekey) => RekeyTouches(s, rekey, t);
    case OfControl(control) =>
      if control.SReadControl? { ReadKeepsResponders(s, t); } else { PeerRekeyTouches(s, control, t); }
    case OfGoaway(goaway) => GoawayTouches(s, goaway, t);
    case OfStream(stream) => StreamTouches(s, stream, t);
    case SPing(_) => OtherTouches(s, step, t);
  }

  lemma ReadKeepsResponders(s: System, t: System)
    requires ReadControl(s) == Some(t) && t.a.failure.None?
    ensures t.a.accepts.serving == s.a.accepts.serving
    ensures forall id: nat | StateOf(t.a.accepts.ledger, id) == Unseen :: StateOf(s.a.accepts.ledger, id) == Unseen
  {
    ReadTouches(s, t);
    ReadingPops(s, t);
    hide ReadControl, Accept, Known;
    if s.ba[0].body.Reset? {
      ResetKeepsSeen(s.a.accepts.ledger, s.ba[0].body.id);
    }
  }

  lemma ResetKeepsSeen(l: Ledger, id: nat)
    ensures MarkPeerReset(l, id).Marked? ==>
              forall i: nat | StateOf(MarkPeerReset(l, id).ledger, i) == Unseen :: StateOf(l, i) == Unseen
  {
    hide Known;
    PutReads(l, id, AbandonedNoFss2);
    PutReads(l, id, UsedOrTerminal);
  }

  lemma AcceptorServes(s: System, step: AcceptorStep, t: System, id: nat)
    requires TakeAcceptor(s, step) == Some(t) && t.a.failure.None? && s.a.goaways.sent.Some?
    requires BoundariesSettled(s) && AcceptsHold(s)
    ensures Serves(t.a.accepts, id) && !Serves(s.a.accepts, id) <==>
            step == SMarkSetup(id) && PassedBefore(s.a.accepts, id)
    ensures PassedBefore(t.a.accepts, id) ==> PassedBefore(s.a.accepts, id)
  {
    hide Frontier, Boundaries, Announcing;
    if step.SMarkSetup? {
      hide BoundariesSettled;
      MarkServes(s, step.id, t, id);
    } else if step.SMarkAccepted? {
      PutReads(s.a.accepts.ledger, step.id, UsedOrTerminal);
    }
  }

  /** A checked ID within a boundary is one that the acceptor has since learnt to be abandoned. */
  lemma SeenIsSettled(s: System, id: nat)
    requires BoundariesSettled(s) && AcceptsHold(s)
    requires id in s.a.accepts.serving && s.a.accepts.serving[id].Checked? && s.a.accepts.serving[id].seen.Some?
    ensures StateOf(s.a.accepts.ledger, id) == AbandonedNoFss2
  {
    hide Boundaries, Frontier, Announcing;
    FrontierIsMaximal(s.a.accepts.ledger, 0);
    assert Known(Other(s.a.role), id);
  }

  lemma MarkServes(s: System, marked: nat, t: System, id: nat)
    requires MarkSetup(s, marked) == Some(t) && t.a.failure.None?
    requires BoundariesSettled(s) && AcceptsHold(s)
    ensures Serves(t.a.accepts, id) && !Serves(s.a.accepts, id) <==> marked == id && PassedBefore(s.a.accepts, id)
    ensures PassedBefore(t.a.accepts, id) ==> PassedBefore(s.a.accepts, id)
  {
    if s.a.accepts.serving[marked].seen.Some? {
      SeenIsSettled(s, marked);
    }
    hide BoundariesSettled, Known, Frontier;
    PutReads(s.a.accepts.ledger, marked, OpenSeen);
    PutReads(s.a.accepts.ledger, marked, UsedOrTerminal);
  }

  // ----- What an opener opens after GOAWAY ------------------------------------------

  /** A clearance that saw a boundary saw the one that still holds. */
  predicate ClearanceCurrent(e: Endpoint) {
    e.opens.opening.Some? ==>
      var o := e.opens.opening.value;
      o.clearance.Cleared? && o.clearance.seen.Some? ==>
        o.clearance.seen == e.goaways.received && OpenAllowed(e.goaways.received, o.id)
  }

  lemma ClearanceStays(s: System, step: Step, t: System)
    requires Live(s) && Take(s, step) == Some(t) && t.a.failure.None? && ClearanceCurrent(s.a)
    ensures ClearanceCurrent(t.a) && ClearanceCurrent(t.b) == ClearanceCurrent(s.b)
  {
    hide TakeOpener, TakeAcceptor, TakeRekey, TakeGoaway, TakeStream, ReadControl, CheckUpdate, AdoptUpdate,
      WriteKeyAck, FinishPeerRekey, Post, OpenAllowed;
    match step
    case OfOpener(opener) => OpenerTouches(s, opener, t); OpenerKeepsClearance(s, opener, t);
    case OfAcceptor(acceptor) => AcceptorTouches(s, acceptor, t);
    case OfRekey(rekey) => RekeyTouches(s, rekey, t);
    case OfControl(control) =>
      if control.SReadControl? { ReadKeepsClearance(s, t); } else { PeerRekeyTouches(s, control, t); }
    case OfGoaway(goaway) => GoawayTouches(s, goaway, t);
    case OfStream(stream) => StreamTouches(s, stream, t);
    case SPing(_) => OtherTouches(s, step, t);
  }

  lemma OpenerKeepsClearance(s: System, step: OpenerStep, t: System)
    requires TakeOpener(s, step) == Some(t) && ClearanceCurrent(s.a) && s.a.failure.None? && t.a.failure.None?
    ensures ClearanceCurrent(t.a)
  {
    hide MarkFss2, MarkTerminal, CarrierOf, OpenAllowed;
  }

  /** A boundary never changes once it is known, so a clearance that saw one stays good. */
  lemma ReadKeepsClearance(s: System, t: System)
    requires ReadControl(s) == Some(t) && t.a.failure.None? && ClearanceCurrent(s.a)
    ensures ClearanceCurrent(t.a) && t.b == s.b
  {
    ReadTouches(s, t);
    ReadingPops(s, t);
    hide ReadControl, Accept, ReceiveReset, Post, OpenAllowed;
    if s.ba[0].body.Reset? {
      ResetTouches(Accept(s), s.ba[0].body.id, t);
    } else if s.ba[0].body.Ping? {
      PostTouches(Accept(s), Pong(s.ba[0].body.nonce), t);
    }
  }

  lemma {:induction false} RunKeepsClearances(s: System, moves: seq<Move>, t: System)
    requires ClearanceCurrent(s.a) && ClearanceCurrent(s.b) && PlayAll(s, moves) == Some(t) && Live(t)
    ensures ClearanceCurrent(t.a) && ClearanceCurrent(t.b)
    decreases |moves|
  {
    hide ClearanceCurrent, Take;
    if moves != [] {
      var u := Play(s, moves[0]).value;
      assert Live(u) by {
        if moves[1..] != [] {
          assert Play(u, moves[1..][0]).Some?;
        }
      }
      match moves[0] {
        case ByA(step) => ClearanceStays(s, step, u);
        case ByB(step) => ClearanceStays(Swap(s), step, Swap(u));
      }
      RunKeepsClearances(u, moves[1..], t);
    }
  }

  lemma OccursCleared(s: System)
    requires Occurs(s) && Live(s)
    ensures ClearanceCurrent(s.a)
  {
    hide PlayAll;
    var r := if Reachable(s) then s else Swap(s);
    var moves :| PlayAll(Established(), moves) == Some(r);
    RunKeepsClearances(Established(), moves, r);
  }

  /** The open of `id` was cleared when no boundary had arrived. */
  predicate ClearedBefore(o: Opens, id: nat) {
    o.opening.Some? && o.opening.value.id == id && o.opening.value.clearance == Cleared(None)
  }

  predicate Registers(s: System, t: System, id: nat) {
    id in t.a.streams && id !in s.a.streams
  }

  /** After GOAWAY an opener registers a stream of its own past the boundary exactly when
      the open was cleared before the boundary arrived, and no open is cleared like that any
      more. What it registers within the boundary, the acceptor has resolved. */
  lemma OpenedPastGoAwayExactly(s: System, step: Step, t: System, last: nat, id: nat)
    requires Occurs(s) && Live(s) && Take(s, step) == Some(t) && t.a.failure.None?
    requires s.a.goaways.received == Some(last) && Known(s.a.role, id)
    ensures Registers(s, t, id) && !OpenAllowed(Some(last), id) <==>
            step == OfOpener(SRegisterOpened) && ClearedBefore(s.a.opens, id) && !OpenAllowed(Some(last), id)
    ensures Registers(s, t, id) && OpenAllowed(Some(last), id) ==> Settled(s.b.accepts.ledger, id)
    ensures ClearedBefore(t.a.opens, id) ==> ClearedBefore(s.a.opens, id)
  {
    hide Occurs, Invariant, Known, Settled;
    NoLateClearance(s, step, t, id);
    hide Live;
    if OpenAllowed(Some(last), id) {
      GoAwayCoversStreams(s, last, id);
    } else if step == OfOpener(SRegisterOpened) {
      OccursCleared(s);
      OccursInvariant(s);
      OpeningUnregistered(s);
    } else {
      OccursInvariant(s);
      OthersRegisterNothing(s, step, t, id);
    }
  }

  lemma NoLateClearance(s: System, step: Step, t: System, id: nat)
    requires Live(s) && Take(s, step) == Some(t) && s.a.goaways.received.Some?
    ensures ClearedBefore(t.a.opens, id) ==> ClearedBefore(s.a.opens, id)
  {
    hide TakeOpener, TakeAcceptor, TakeRekey, TakeGoaway, TakeStream, ReadControl, CheckUpdate, AdoptUpdate,
      WriteKeyAck, FinishPeerRekey, Post;
    match step
    case OfOpener(opener) => OpenerClearsNoMore(s, opener, t, id);
    case OfAcceptor(acceptor) => AcceptorTouches(s, acceptor, t);
    case OfRekey(rekey) => RekeyTouches(s, rekey, t);
    case OfControl(control) => if control.SReadControl? { ReadTouches(s, t); } else { PeerRekeyTouches(s, control, t); }
    case OfGoaway(goaway) => GoawayTouches(s, goaway, t);
    case OfStream(stream) => StreamTouches(s, stream, t);
    case _ => OtherTouches(s, step, t);
  }

  lemma OpenerClearsNoMore(s: System, step: OpenerStep, t: System, id: nat)
    requires TakeOpener(s, step) == Some(t) && s.a.goaways.received.Some?
    ensures ClearedBefore(t.a.opens, id) ==> ClearedBefore(s.a.opens, id)
  {
    hide MarkFss2, MarkTerminal, CarrierOf, OpenAllowed;
  }

  lemma OpeningUnregistered(s: System)
    requires Invariant(s)
    ensures s.a.opens.opening.Some? ==> s.a.opens.opening.value.id !in s.a.streams
  {
    hide Frontier, Boundaries, Updates, Acks, Resets, ResetsBefore, Chain;
    assert StreamIdsHold(s);
  }

  lemma OthersRegisterNothing(s: System, step: Step, t: System, id: nat)
    requires Invariant(s) && Take(s, step) == Some(t) && step != OfOpener(SRegisterOpened) && Known(s.a.role, id)
    ensures !Registers(s, t, id)
  {
    hide Invariant, Known, RegisterAccepted, TakeOpener, TakeRekey, TakeControl, TakeGoaway, TakeStream;
    assert RegistersAccepted(step) ==> RegisterAccepted(s, step.acceptor.id) == Some(t);
    hide Take;
    if RegistersAccepted(step) {
      AcceptedAreThePeers(s, step.acceptor.id, t);
    } else {
      OnlyRegisteringAdds(s, step, t);
    }
  }

  lemma AcceptedAreThePeers(s: System, id: nat, t: System)
    requires Invariant(s) && RegisterAccepted(s, id) == Some(t)
    ensures !Known(s.a.role, id)
    ensures t.a.streams.Keys == s.a.streams.Keys + {id}
  {
    hide Frontier, Boundaries, Updates, Acks, Resets, ResetsBefore, Chain;
    assert AcceptsHold(s);
    OneOpener(Other(s.a.role), id);
  }

  // ----- A forbidden open -----------------------------------------------------------

  /** The boundary that arrived forbids `id`, and its open was not cleared in time. */
  ghost predicate Forbidden(s: System, id: nat) {
    && Known(s.a.role, id) && id !in s.a.streams
    && s.a.goaways.received.Some? && !OpenAllowed(s.a.goaways.received, id)
    && !ClearedBefore(s.a.opens, id)
  }

  lemma ReceivedStays(s: System, step: Step, t: System)
    requires Live(s) && Take(s, step) == Some(t) && t.a.failure.None? && s.a.goaways.received.Some?
    ensures t.a.goaways.received == s.a.goaways.received && t.a.role == s.a.role && t.b == s.b
  {
    hide TakeOpener, TakeAcceptor, TakeRekey, TakeGoaway, TakeStream, ReadControl, CheckUpdate, AdoptUpdate,
      WriteKeyAck, FinishPeerRekey, Post;
    match step
    case OfOpener(opener) => OpenerTouches(s, opener, t); OpenerKeepsReceived(s, opener, t);
    case OfAcceptor(acceptor) => AcceptorTouches(s, acceptor, t);
    case OfRekey(rekey) => RekeyTouches(s, rekey, t);
    case OfControl(control) =>
      if control.SReadControl? { ReadKeepsReceived(s, t); } else { PeerRekeyTouches(s, control, t); }
    case OfGoaway(goaway) => GoawayTouches(s, goaway, t);
    case OfStream(stream) => StreamTouches(s, stream, t);
    case _ => OtherTouches(s, step, t);
  }

  lemma OpenerKeepsReceived(s: System, step: OpenerStep, t: System)
    requires TakeOpener(s, step) == Some(t)
    ensures t.a.goaways.received == s.a.goaways.received
  {
    hide MarkFss2, MarkTerminal, CarrierOf, OpenAllowed;
  }

  lemma ReadKeepsReceived(s: System, t: System)
    requires ReadControl(s) == Some(t) && t.a.failure.None? && s.a.goaways.received.Some?
    ensures t.a.goaways.received == s.a.goaways.received && t.a.role == s.a.role && t.b == s.b
  {
    ReadTouches(s, t);
    ReadingPops(s, t);
    hide ReadControl, Accept, ReceiveReset, Post;
    if s.ba[0].body.Reset? {
      ResetTouches(Accept(s), s.ba[0].body.id, t);
    } else if s.ba[0].body.Ping? {
      PostTouches(Accept(s), Pong(s.ba[0].body.nonce), t);
    }
  }

  lemma ForbiddenStays(s: System, step: Step, t: System, id: nat)
    requires Live(s) && Invariant(s) && ClearanceCurrent(s.a) && Forbidden(s, id)
    requires Take(s, step) == Some(t) && t.a.failure.None?
    ensures Forbidden(t, id)
  {
    hide Invariant, Known, OpenAllowed;
    assert step == OfOpener(SRegisterOpened) ==> RegisterOpened(s) == Some(t);
    hide Take;
    ReceivedStays(s, step, t);
    NoLateClearance(s, step, t, id);
    if step == OfOpener(SRegisterOpened) {
      assert !Registers(s, t, id);
    } else {
      hide ClearanceCurrent, ClearedBefore;
      OthersRegisterNothing(s, step, t, id);
    }
  }

  /** Once a boundary has arrived that forbids an ID whose open was not already cleared, no
      continuation of the run, by either endpoint, ever registers that stream. */
  lemma {:induction false} ForbiddenNeverRegistered(s: System, moves: seq<Move>, t: System, id: nat)
    requires Safe(s) && ClearanceCurrent(s.a) && Forbidden(s, id) && PlayAll(s, moves) == Some(t) && Live(t)
    ensures id !in t.a.streams
    decreases |moves|
  {
    hide Safe, Take, ClearanceCurrent, Invariant;
    if moves != [] {
      var u := Play(s, moves[0]).value;
      assert Live(u) by {
        if moves[1..] != [] {
          assert Play(u, moves[1..][0]).Some?;
        }
      }
      PlaySafe(s, moves[0], u);
      SafeLive(s);
      match moves[0] {
        case ByA(step) =>
          ClearanceStays(s, step, u);
          ForbiddenStays(s, step, u, id);
        case ByB(step) =>
          OtherEndKeeps(Swap(s), step, Swap(u));
      }
      ForbiddenNeverRegistered(u, moves[1..], t, id);
    }
  }

  lemma SafeLive(s: System)
    requires Safe(s) && Live(s)
    ensures Invariant(s)
  {
    hide Invariant;
  }

  lemma OtherEndKeeps(s: System, step: Step, t: System)
    requires Take(s, step) == Some(t)
    ensures t.b == s.b
  {
    hide TakeOpener, TakeAcceptor, TakeRekey, TakeGoaway, TakeStream, ReadControl, CheckUpdate, AdoptUpdate,
      WriteKeyAck, FinishPeerRekey, Post;
    match step
    case OfOpener(opener) => OpenerTouches(s, opener, t);
    case OfAcceptor(acceptor) => AcceptorTouches(s, acceptor, t);
    case OfRekey(rekey) => RekeyTouches(s, rekey, t);
    case OfControl(control) => if control.SReadControl? { ReadTouches(s, t); } else { PeerRekeyTouches(s, control, t); }
    case OfGoaway(goaway) => GoawayTouches(s, goaway, t);
    case OfStream(stream) => StreamTouches(s, stream, t);
    case _ => OtherTouches(s, step, t);
  }

  /** The same for a state that occurs in a run. */
  lemma ForbiddenOpenStops(s: System, moves: seq<Move>, t: System, id: nat)
    requires Occurs(s) && Live(s) && Forbidden(s, id) && PlayAll(s, moves) == Some(t) && Live(t)
    ensures id !in t.a.streams
  {
    hide Occurs, Safe, ClearanceCurrent, Forbidden, PlayAll;
    OccursSafe(s);
    OccursCleared(s);
    ForbiddenNeverRegistered(s, moves, t, id);
  }
}
