/** What every step of the session keeps. Each predicate takes only the parts of the
    state it speaks about; `Invariant` puts them together for both directions. */
module SessionInvariant {
  import opened Basics
  import opened Ledgers
  import opened Session

  // ----- Reading a control channel --------------------------------------------------

  /** The key updates in flight, oldest first. */
  function Updates(q: seq<Record>): seq<Update> {
    if q == [] then [] else (if q[0].body.KeyUpdate? then [q[0].body.update] else []) + Updates(q[1..])
  }

  function Acks(q: seq<Record>): seq<Update> {
    if q == [] then [] else (if q[0].body.KeyAck? then [q[0].body.update] else []) + Acks(q[1..])
  }

  function Resets(q: seq<Record>): set<nat> {
    if q == [] then {} else (if q[0].body.Reset? then {q[0].body.id} else {}) + Resets(q[1..])
  }

  /** The resets that a reader meets before the first key update. */
  function ResetsBefore(q: seq<Record>): set<nat> {
    if q == [] || q[0].body.KeyUpdate? then {}
    else (if q[0].body.Reset? then {q[0].body.id} else {}) + ResetsBefore(q[1..])
  }

  function Boundaries(q: seq<Record>): set<nat> {
    if q == [] then {} else (if q[0].body.GoAway? then {q[0].body.last} else {}) + Boundaries(q[1..])
  }

  /** The reader expects label (e, n) and the writer will next use (e', n'): the labels
      in between follow one another, each either the next sequence or a fresh epoch. */
  predicate Chain(q: seq<Record>, e: nat, n: nat, e': nat, n': nat)
    decreases |q|
  {
    if q == [] then (e' == e && n' == n) || (e' == e + 1 && n' == 0)
    else
      && ((q[0].epoch == e && q[0].sequence == n) || (q[0].epoch == e + 1 && q[0].sequence == 0))
      && Chain(q[1..], q[0].epoch, q[0].sequence + 1, e', n')
  }

  /** An update travels in the epoch that it ends. */
  ghost predicate UpdatesLabelled(q: seq<Record>) {
    forall r | r in q && r.body.KeyUpdate? :: r.body.update.nextEpoch == r.epoch + 1
  }

  lemma {:induction false} AppendUpdates(q: seq<Record>, r: Record)
    ensures Updates(q + [r]) == Updates(q) + (if r.body.KeyUpdate? then [r.body.update] else [])
    decreases |q|
  {
    if q == [] {
      assert q + [r] == [r] && [r][1..] == [];
    } else {
      AppendUpdates(q[1..], r);
      assert (q + [r])[0] == q[0] && (q + [r])[1..] == q[1..] + [r];
    }
  }

  lemma {:induction false} AppendAcks(q: seq<Record>, r: Record)
    ensures Acks(q + [r]) == Acks(q) + (if r.body.KeyAck? then [r.body.update] else [])
    decreases |q|
  {
    if q == [] {
      assert q + [r] == [r] && [r][1..] == [];
    } else {
      AppendAcks(q[1..], r);
      assert (q + [r])[0] == q[0] && (q + [r])[1..] == q[1..] + [r];
    }
  }

  lemma {:induction false} AppendResets(q: seq<Record>, r: Record)
    ensures Resets(q + [r]) == Resets(q) + (if r.body.Reset? then {r.body.id} else {})
    ensures Boundaries(q + [r]) == Boundaries(q) + (if r.body.GoAway? then {r.body.last} else {})
    decreases |q|
  {
    if q == [] {
      assert q + [r] == [r] && [r][1..] == [];
    } else {
      AppendResets(q[1..], r);
      assert (q + [r])[0] == q[0] && (q + [r])[1..] == q[1..] + [r];
    }
  }

  lemma {:induction false} AppendResetsBefore(q: seq<Record>, r: Record)
    ensures ResetsBefore(q + [r]) == ResetsBefore(q) + (if Updates(q) == [] && r.body.Reset? then {r.body.id} else {})
    ensures Updates(q) == [] ==> ResetsBefore(q) == Resets(q)
    decreases |q|
  {
    if q == [] {
      assert q + [r] == [r] && [r][1..] == [];
    } else {
      AppendResetsBefore(q[1..], r);
      assert (q + [r])[0] == q[0] && (q + [r])[1..] == q[1..] + [r];
    }
  }

  lemma AppendReads(q: seq<Record>, r: Record)
    ensures Updates(q + [r]) == if r.body.KeyUpdate? then Updates(q) + [r.body.update] else Updates(q)
    ensures Acks(q + [r]) == if r.body.KeyAck? then Acks(q) + [r.body.update] else Acks(q)
    ensures Resets(q + [r]) == if r.body.Reset? then Resets(q) + {r.body.id} else Resets(q)
    ensures Boundaries(q + [r]) == if r.body.GoAway? then Boundaries(q) + {r.body.last} else Boundaries(q)
    ensures ResetsBefore(q + [r]) ==
            if Updates(q) == [] && r.body.Reset? then ResetsBefore(q) + {r.body.id} else ResetsBefore(q)
    ensures Updates(q) == [] ==> ResetsBefore(q) == Resets(q)
  {
    hide *;
    AppendUpdates(q, r);
    AppendAcks(q, r);
    AppendResets(q, r);
    AppendResetsBefore(q, r);
  }

  lemma {:induction false} ChainAppend(q: seq<Record>, e: nat, n: nat, e': nat, n': nat, body: Body)
    requires Chain(q, e, n, e', n')
    ensures Chain(q + [Record(e', n', body)], e, n, e', n' + 1)
    decreases |q|
  {
    var r := Record(e', n', body);
    if q == [] {
      assert q + [r] == [r] && [r][1..] == [];
    } else {
      ChainAppend(q[1..], q[0].epoch, q[0].sequence + 1, e', n', body);
      assert (q + [r])[0] == q[0] && (q + [r])[1..] == q[1..] + [r];
    }
  }

  /** A writer that has used its epoch may move to the next one. */
  lemma {:induction false} ChainSwitch(q: seq<Record>, e: nat, n: nat, e': nat, n': nat)
    requires Chain(q, e, n, e', n') && n' > 0
    ensures Chain(q, e, n, e' + 1, 0)
    decreases |q|
  {
    if q != [] {
      ChainSwitch(q[1..], q[0].epoch, q[0].sequence + 1, e', n');
    }
  }

  lemma {:induction false} ChainBounds(q: seq<Record>, e: nat, n: nat, e': nat, n': nat)
    requires Chain(q, e, n, e', n')
    ensures e <= e'
    ensures q != [] ==> q[0].epoch <= e'
    decreases |q|
  {
    if q != [] {
      ChainBounds(q[1..], q[0].epoch, q[0].sequence + 1, e', n');
    }
  }

  // ----- Stream IDs ---------------------------------------------------------------

  lemma OneOpener(role: Role, id: nat)
    ensures Known(role, id) ==> ValidId(role, id)
    ensures ValidId(role, id) ==> !ValidId(Other(role), id) && !Known(Other(role), id)
  {
  }

  // ----- One endpoint ---------------------------------------------------------------

  /** The roots of epoch `e`: the e-fold derivation from the session PRK. */
  function Derived(d: Direction, e: nat): Roots {
    if e == 0 then EpochZero(d) else NextEpoch(Derived(d, e - 1), d, e)
  }

  ghost predicate OnSchedule(roots: map<nat, Roots>, d: Direction) {
    forall e | e in roots :: roots[e] == Derived(d, e)
  }

  predicate Uncommitted(p: LocalPhase) {
    p.Idle? || p.Draining? || p.WaitingFrontier? || p.Prepared?
  }

  ghost predicate KeysOk(role: Role, k: Keys, local: LocalPhase, peer: PeerPhase) {
    && OnSchedule(k.sendRoots, SendDirection(role))
    && OnSchedule(k.recvRoots, SendDirection(Other(role)))
    && k.sendEpoch in k.sendRoots
    && (Uncommitted(local) ==> k.sendRoots.Keys == {k.sendEpoch})
    && (local.Prepared? ==> local.plan.roots == Derived(SendDirection(role), local.plan.update.nextEpoch))
    && (local.Updating? || local.AwaitingAck? || local.Acked? ==> local.plan.update.nextEpoch in k.sendRoots)
    && (peer.PeerDraining? ==> k.recvEpoch in k.recvRoots)
  }

  ghost predicate Announces(p: Plan, sendEpoch: nat, high: nat) {
    p.update == Update(sendEpoch + 1, sendEpoch + 1, high)
  }

  ghost predicate PlanOk(r: Rekeys, sendEpoch: nat, recvEpoch: nat, high: nat, sendSequence: nat) {
    && r.recvTransition == recvEpoch
    && match r.local
       case Idle => r.nextTransition == sendEpoch + 1 && r.pending == map[]
       case Draining => r.nextTransition == sendEpoch + 1 && r.pending == map[]
       case WaitingFrontier(w) => r.nextTransition == sendEpoch + 1 && r.pending == map[] && w == high
       case Prepared(p) => r.nextTransition == sendEpoch + 1 && r.pending == map[] && Announces(p, sendEpoch, high)
       case Updating(p, todo) =>
         && r.nextTransition == sendEpoch + 2 && r.pending == map[p.update.transition := p.update]
         && Announces(p, sendEpoch, high) && todo <= p.streams
       case AwaitingAck(p) =>
         && r.nextTransition == sendEpoch + 2 && r.pending == map[p.update.transition := p.update]
         && Announces(p, sendEpoch, high) && sendSequence > 0
       case Acked(p) =>
         && r.nextTransition == sendEpoch + 2 && r.pending == map[]
         && Announces(p, sendEpoch, high) && sendSequence > 0
       case Switched(p) =>
         r.nextTransition == sendEpoch + 1 && r.pending == map[]
         && p.update.transition == sendEpoch && p.update.nextEpoch == sendEpoch
  }

  ghost predicate OpensOk(role: Role, o: Opens) {
    && o.outbound.opener == role
    && FrontierShape(role, o.highWatermark)
    && ValidId(role, o.nextId) && o.nextId > o.highWatermark
    && (Known(role, o.nextId) ==> o.nextId == NextId(role, o.highWatermark))
    && (forall id: nat | Known(role, id) :: id <= o.highWatermark <==> StateOf(o.outbound, id) != Unseen)
    && (forall id: nat :: StateOf(o.outbound, id) != AbandonedNoFss2)
    && (o.opening.Some? ==> Known(role, o.opening.value.id) && o.opening.value.id <= o.highWatermark)
    && (forall id | id in o.leaving :: Known(role, id) && id <= o.highWatermark)
    && (o.opening.Some? ==> o.opening.value.id !in o.leaving)
  }

  ghost predicate AllResolved(role: Role, o: Opens) {
    forall id: nat | Known(role, id) && id <= o.highWatermark :: Settled(o.outbound, id)
  }

  /** The open lock: no open runs during a rekey, and an open keeps its epoch. */
  ghost predicate LockOk(role: Role, o: Opens, local: LocalPhase, sendEpoch: nat) {
    && (o.opening.Some? ==>
          && local.Idle?
          && (o.opening.value.stage.Allocated? || o.opening.value.stage.epoch == sendEpoch))
    && (local.Prepared? || local.Updating? || local.AwaitingAck? ==> AllResolved(role, o))
  }

  ghost predicate AcceptsOk(peer: Role, ledger: Ledger, serving: map<nat, Responder>) {
    && ledger.opener == peer
    && forall id | id in serving ::
         && Known(peer, id)
         && (if serving[id].Checked? then StateOf(ledger, id) == Unseen || StateOf(ledger, id) == AbandonedNoFss2
             else StateOf(ledger, id) == OpenSeen || StateOf(ledger, id) == UsedOrTerminal)
         && (serving[id].HandedOver? ==> Settled(ledger, id))
  }

  /** Unless rekeys overlapped, the freeze flag is up and in one hand while a rekey runs. */
  ghost predicate GuardsOk(g: Guards, local: LocalPhase) {
    !g.overlapped && !local.Idle? ==> g.frozen && g.freezes == 0
  }

  /** The responder freezes: past its drain, a rekey meets no responder. The local freeze
      is certain only where no two local rekeys overlapped. */
  ghost predicate FreezeOk(idle: nat, serving: map<nat, Responder>, local: LocalPhase, peer: PeerPhase,
                           overlapped: bool)
  {
    && (!overlapped && !local.Idle? && !local.Draining? ==> idle == 0 && serving == map[])
    && (!peer.Listening? && !peer.PeerDraining? ==> idle == 0 && serving == map[])
  }

  ghost predicate AckEpochsOk(serving: map<nat, Responder>, sendEpoch: nat, overlapped: bool) {
    !overlapped ==> forall id | id in serving && serving[id].AckSent? :: serving[id].sendEpoch == sendEpoch
  }

  ghost predicate Switching(st: Stream, p: Plan) {
    || (st.sendUpdate == Some((p.update.transition, p.update.nextEpoch)) && st.sendUpdateAck.None?)
    || (st.sendUpdate.None? && st.sendEpoch == p.update.nextEpoch
        && st.sendUpdateAck == Some((p.update.transition, p.update.nextEpoch)))
  }

  /** How far the local rekey has come with one registered stream. */
  ghost predicate StreamOk(id: nat, st: Stream, local: LocalPhase) {
    && (st.recvUpdate.Some? ==> st.recvUpdate.value.1 == st.recvEpoch)
    && match local
       case Updating(p, todo) => if id in p.streams && id !in todo then Switching(st, p) else st.sendUpdate.None?
       case AwaitingAck(p) => if id in p.streams then Switching(st, p) else st.sendUpdate.None?
       case Acked(p) => if id in p.streams then Switching(st, p) else st.sendUpdate.None?
       case Switched(p) => if id in p.streams then Switching(st, p) else st.sendUpdate.None?
       case _ => st.sendUpdate.None?
  }

  /** How one registered stream stands to its session's send epoch. */
  ghost predicate Coupled(id: nat, st: Stream, sendEpoch: nat, local: LocalPhase) {
    match local
    case Idle => Active(st) ==> st.sendEpoch == sendEpoch
    case Draining => Active(st) ==> st.sendEpoch == sendEpoch
    case WaitingFrontier(_) => Active(st) ==> st.sendEpoch == sendEpoch
    case Prepared(p) => if id in p.streams then st.sendEpoch == sendEpoch else !Active(st)
    case Updating(p, todo) =>
      && (id in p.streams || !Active(st))
      && (id in todo ==> st.sendEpoch == sendEpoch)
    case AwaitingAck(p) => id in p.streams || !Active(st)
    case Acked(p) => id in p.streams || !Active(st)
    case Switched(p) => id in p.streams || !Active(st)
  }

  ghost predicate StreamsOk(streams: map<nat, Stream>, sendEpoch: nat, local: LocalPhase, overlapped: bool) {
    && Planned(local) <= streams.Keys
    && (forall id | id in streams :: StreamOk(id, streams[id], local))
    && (!overlapped ==> forall id | id in streams :: Coupled(id, streams[id], sendEpoch, local))
  }

  /** A registered stream is one that this side opened, or one it has resolved as acceptor,
      and none is registered whose responder has not come that far. */
  ghost predicate StreamIdsOk(role: Role, ids: set<nat>, opening: Option<Opening>, high: nat,
                              ledger: Ledger, serving: map<nat, Responder>)
  {
    && (opening.Some? ==> opening.value.id !in ids)
    && (forall id | id in serving && id in ids :: serving[id].Registered? || serving[id].HandedOver?)
    && forall id | id in ids ::
         || (Known(role, id) && id <= high)
         || (Known(Other(role), id)
             && (StateOf(ledger, id) == UsedOrTerminal || (id in serving && serving[id].Registered?)))
  }

  /** A stream whose reset is still to be written is one that this side opened, or one it has
      resolved as acceptor. */
  ghost predicate ResettingOk(role: Role, resetting: set<nat>, opening: Option<Opening>, high: nat, ledger: Ledger) {
    && (opening.Some? ==> opening.value.id !in resetting)
    && forall id | id in resetting :: (Known(role, id) && id <= high) || (Known(Other(role), id) && Settled(ledger, id))
  }

  // ----- One direction: x sends and opens, y receives and accepts -------------------

  /** The update whose ACK the sender has not processed. */
  function Outstanding(local: LocalPhase): seq<Update> {
    if local.AwaitingAck? then [local.plan.update] else []
  }

  /** The update that the receiver is working on. */
  function Held(peer: PeerPhase): seq<Update> {
    if peer.PeerDraining? || peer.AwaitingStreams? || peer.Adopted? then [peer.update] else []
  }

  /** Exactly one place holds the outstanding update, and the receiver is one epoch
      ahead just while it has adopted an update that the sender has not switched to. */
  ghost predicate Lockstep(local: LocalPhase, sendEpoch: nat, peer: PeerPhase, recvEpoch: nat,
                     updates: seq<Update>, acks: seq<Update>)
  {
    && updates + Held(peer) + acks == Outstanding(local)
    && recvEpoch == sendEpoch + (if local.Acked? || peer.Adopted? || acks != [] then 1 else 0)
  }

  ghost predicate ReaderOk(labelEpoch: nat, recvEpoch: nat, peer: PeerPhase) {
    && labelEpoch <= recvEpoch <= labelEpoch + 1
    && (Held(peer) != [] ==> peer.update.nextEpoch == labelEpoch + 1)
  }

  /** The acceptor has resolved `id`, or its responder has already written OPEN_ACK. */
  ghost predicate Answered(ledger: Ledger, serving: map<nat, Responder>, id: nat) {
    Settled(ledger, id) || (id in serving && !serving[id].Checked? && !serving[id].SetupSeen?)
  }

  ghost predicate SetupsOk(opener: Role, high: nat, ledger: Ledger, serving: map<nat, Responder>,
                           carriers: map<nat, Carrier>)
  {
    && (forall id: nat | Known(opener, id) && id > high :: StateOf(ledger, id) == Unseen && id !in serving)
    && (forall id: nat | ValidId(opener, id) && CarrierOf(carriers, id).setup.Some? ::
          && Known(opener, id) && id <= high && id !in serving
          && (StateOf(ledger, id) == Unseen || StateOf(ledger, id) == AbandonedNoFss2))
    && (forall id: nat | Known(opener, id) && CarrierOf(carriers, id).openAck.Some? :: Answered(ledger, serving, id))
  }

  /** Whatever the opener counts as settled, the acceptor has answered or will learn
      from a reset that is on its way. */
  ghost predicate ResolutionsOk(opener: Role, outbound: Ledger, leaving: map<nat, bool>,
                                ledger: Ledger, serving: map<nat, Responder>, resets: set<nat>)
  {
    && (forall id: nat | Known(opener, id) && Settled(outbound, id) :: Answered(ledger, serving, id) || id in resets)
    && (forall id | id in leaving && leaving[id] :: Answered(ledger, serving, id) || id in resets)
  }

  /** An opener resets only what it has opened, an acceptor only what it has resolved. */
  ghost predicate ResetsOk(opener: Role, high: nat, ledger: Ledger, resets: set<nat>, resetsBack: set<nat>) {
    && (forall id | id in resets && Known(opener, id) :: id <= high)
    && (forall id | id in resetsBack && Known(opener, id) :: Settled(ledger, id))
    && (forall id | id in resets :: Known(Client, id) || Known(Server, id))
  }

  predicate Unsent(stage: OpenStage) {
    stage.Allocated? || stage.Keyed?
  }

  /** Nothing about an ID whose preface is not yet written has left the opener. */
  ghost predicate FreshOk(opening: Option<Opening>, ledger: Ledger, serving: map<nat, Responder>,
                          carriers: map<nat, Carrier>, resets: set<nat>)
  {
    opening.Some? && Unsent(opening.value.stage) ==>
      var id := opening.value.id;
      && StateOf(ledger, id) == Unseen && id !in serving && id !in resets
      && CarrierOf(carriers, id).setup.None?
  }

  /** An update is announced behind every reset that resolves an ID below it. */
  ghost predicate UpdateCovered(opener: Role, high: nat, ledger: Ledger, serving: map<nat, Responder>,
                                peer: PeerPhase, updates: seq<Update>, before: set<nat>)
  {
    && (updates != [] ==>
          forall id: nat | Known(opener, id) && id <= high :: Answered(ledger, serving, id) || id in before)
    && (peer.PeerDraining? || peer.AwaitingStreams? ==>
          forall id: nat | Known(opener, id) && id <= high :: Answered(ledger, serving, id))
  }

  /** A preface in flight carries the current epoch, or belongs to an ID that the
      acceptor already knows to be abandoned. */
  ghost predicate SetupEpochsOk(opener: Role, ledger: Ledger, recvEpoch: nat, carriers: map<nat, Carrier>) {
    forall id: nat | Known(opener, id) && CarrierOf(carriers, id).setup.Some? ::
      CarrierOf(carriers, id).setup.value == recvEpoch || StateOf(ledger, id) == AbandonedNoFss2
  }

  /** Both ends of a stream being set up have the same two epochs in mind. */
  ghost predicate AgreeOk(opener: Role, opening: Option<Opening>, ledger: Ledger, serving: map<nat, Responder>,
                          fixed: map<nat, Fixed>, carriers: map<nat, Carrier>)
  {
    && (forall id | id in fixed :: StateOf(ledger, id) == OpenSeen || StateOf(ledger, id) == UsedOrTerminal)
    && (forall id: nat | Known(opener, id) && CarrierOf(carriers, id).openAck.Some? ::
          id in fixed && fixed[id].sendEpoch == CarrierOf(carriers, id).openAck.value)
    && (forall id | id in serving ::
          && (serving[id].Checked? || serving[id].SetupSeen? ==> id !in fixed)
          && (serving[id].AckSent? ==> id in fixed && fixed[id] == Fixed(serving[id].epoch, serving[id].sendEpoch)))
    && (opening.Some? && !Unsent(opening.value.stage) ==> OpeningAgrees(opening.value, serving, fixed, carriers))
  }

  ghost predicate OpeningAgrees(o: Opening, serving: map<nat, Responder>, fixed: map<nat, Fixed>,
                                carriers: map<nat, Carrier>)
    requires !Unsent(o.stage)
  {
    && (CarrierOf(carriers, o.id).setup.Some? ==> CarrierOf(carriers, o.id).setup.value == o.stage.epoch)
    && (o.id in serving && (serving[o.id].Checked? || serving[o.id].SetupSeen? || serving[o.id].AckSent?) ==>
          serving[o.id].epoch == o.stage.epoch)
    && (o.id in fixed ==> fixed[o.id].recvEpoch == o.stage.epoch)
    && (o.stage.Resolved? ==> o.id in fixed && fixed[o.id].sendEpoch == o.stage.receiveEpoch)
  }

  /** The boundaries that an acceptor is about to announce. */
  function Noticed(n: Notice): set<nat> {
    if n.Noted? || n.Stored? then {n.last} else {}
  }

  function Announcing(g: Goaways): set<nat> {
    Noticed(g.closer) + Noticed(g.exhausted)
  }

  ghost predicate BoundariesOk(opener: Role, high: nat, boundaries: set<nat>) {
    forall last | last in boundaries :: last == 0 || (Known(opener, last) && last <= high)
  }

  // ----- The parts, read off a system for endpoint `a` and the direction a to b -----

  ghost predicate KeysHold(s: System) {
    KeysOk(s.a.role, s.a.keys, s.a.rekeys.local, s.a.rekeys.peer)
  }

  ghost predicate PlanHolds(s: System) {
    PlanOk(s.a.rekeys, s.a.keys.sendEpoch, s.a.keys.recvEpoch, s.a.opens.highWatermark, s.a.labels.sendSequence)
  }

  ghost predicate OpensHold(s: System) {
    OpensOk(s.a.role, s.a.opens)
  }

  ghost predicate LockHolds(s: System) {
    LockOk(s.a.role, s.a.opens, s.a.rekeys.local, s.a.keys.sendEpoch)
  }

  ghost predicate AcceptsHold(s: System) {
    AcceptsOk(Other(s.a.role), s.a.accepts.ledger, s.a.accepts.serving)
  }

  ghost predicate GuardsHold(s: System) {
    GuardsOk(s.a.guards, s.a.rekeys.local)
  }

  ghost predicate FreezeHolds(s: System) {
    FreezeOk(s.a.accepts.idle, s.a.accepts.serving, s.a.rekeys.local, s.a.rekeys.peer, s.a.guards.overlapped)
  }

  ghost predicate AckEpochsHold(s: System) {
    AckEpochsOk(s.a.accepts.serving, s.a.keys.sendEpoch, s.a.guards.overlapped)
  }

  ghost predicate StreamsHold(s: System) {
    StreamsOk(s.a.streams, s.a.keys.sendEpoch, s.a.rekeys.local, s.a.guards.overlapped)
  }

  ghost predicate StreamIdsHold(s: System) {
    StreamIdsOk(s.a.role, s.a.streams.Keys, s.a.opens.opening, s.a.opens.highWatermark,
                s.a.accepts.ledger, s.a.accepts.serving)
  }

  ghost predicate ResettingHolds(s: System) {
    ResettingOk(s.a.role, s.a.resetting, s.a.opens.opening, s.a.opens.highWatermark, s.a.accepts.ledger)
  }

  ghost predicate ChainHolds(s: System) {
    Chain(s.ab, s.b.labels.recvEpoch, s.b.labels.recvSequence, s.a.keys.sendEpoch, s.a.labels.sendSequence)
  }

  ghost predicate LabelledHolds(s: System) {
    UpdatesLabelled(s.ab)
  }

  ghost predicate ReaderHolds(s: System) {
    ReaderOk(s.b.labels.recvEpoch, s.b.keys.recvEpoch, s.b.rekeys.peer)
  }

  ghost predicate LockstepHolds(s: System) {
    Lockstep(s.a.rekeys.local, s.a.keys.sendEpoch, s.b.rekeys.peer, s.b.keys.recvEpoch, Updates(s.ab), Acks(s.ba))
  }

  ghost predicate SetupsHold(s: System) {
    SetupsOk(s.a.role, s.a.opens.highWatermark, s.b.accepts.ledger, s.b.accepts.serving, s.carriers)
  }

  ghost predicate ResolutionsHold(s: System) {
    ResolutionsOk(s.a.role, s.a.opens.outbound, s.a.opens.leaving, s.b.accepts.ledger, s.b.accepts.serving,
                  Resets(s.ab))
  }

  ghost predicate ResetsHold(s: System) {
    ResetsOk(s.a.role, s.a.opens.highWatermark, s.b.accepts.ledger, Resets(s.ab), Resets(s.ba))
  }

  ghost predicate FreshHolds(s: System) {
    FreshOk(s.a.opens.opening, s.b.accepts.ledger, s.b.accepts.serving, s.carriers, Resets(s.ab))
  }

  ghost predicate CoverHolds(s: System) {
    UpdateCovered(s.a.role, s.a.opens.highWatermark, s.b.accepts.ledger, s.b.accepts.serving, s.b.rekeys.peer,
                  Updates(s.ab), ResetsBefore(s.ab))
  }

  ghost predicate SetupEpochsHold(s: System) {
    SetupEpochsOk(s.a.role, s.b.accepts.ledger, s.b.keys.recvEpoch, s.carriers)
  }

  ghost predicate AgreeHold(s: System) {
    AgreeOk(s.a.role, s.a.opens.opening, s.b.accepts.ledger, s.b.accepts.serving, s.b.accepts.fixed, s.carriers)
  }

  ghost predicate BoundariesHold(s: System) {
    BoundariesOk(s.a.role, s.a.opens.highWatermark, Boundaries(s.ba) + Announcing(s.b.goaways))
  }

  ghost predicate Half(s: System) {
    && s.b.role == Other(s.a.role)
    && KeysHold(s) && PlanHolds(s) && GuardsHold(s) && OpensHold(s) && LockHolds(s)
    && AcceptsHold(s) && FreezeHolds(s) && AckEpochsHold(s) && StreamsHold(s) && StreamIdsHold(s)
    && ResettingHolds(s) && ChainHolds(s) && LabelledHolds(s) && ReaderHolds(s) && LockstepHolds(s)
    && SetupsHold(s) && ResolutionsHold(s) && ResetsHold(s) && FreshHolds(s)
    && CoverHolds(s) && SetupEpochsHold(s) && AgreeHold(s) && BoundariesHold(s)
  }

  ghost predicate Invariant(s: System) {
    Half(s) && Half(Swap(s))
  }

  /** The failures that two honest endpoints may still run into. */
  ghost predicate Tolerated(f: Failure) {
    f.RootsPruned? || f.StaleSetup? || f.GoawayChanged? || f.SequenceExhausted? || f.External?
  }

  ghost predicate FailureOk(f: Option<Failure>) {
    f.None? || Tolerated(f.value)
  }

  /** A live state keeps the invariant; a failed one failed for a tolerated reason. */
  ghost predicate Safe(s: System) {
    && FailureOk(s.a.failure) && FailureOk(s.b.failure)
    && (Live(s) ==> Invariant(s))
  }

  lemma ResettingSettles(s: System, t: System)
    requires t.a.role == s.a.role && t.a.resetting == s.a.resetting && t.a.opens == s.a.opens
    requires forall i: nat | Settled(s.a.accepts.ledger, i) :: Settled(t.a.accepts.ledger, i)
    requires ResettingHolds(s)
    ensures ResettingHolds(t)
  {
    hide Known, Settled;
  }

  lemma NewSchedulesHold(s: System)
    requires s == Established() || s == Swap(Established())
    ensures KeysHold(s) && PlanHolds(s) && StreamsHold(s) && ChainHolds(s) && LockstepHolds(s)
  {}

  lemma NewLedgersHold(s: System)
    requires s == Established() || s == Swap(Established())
    ensures OpensHold(s) && LockHolds(s) && AcceptsHold(s) && FreezeHolds(s) && AckEpochsHold(s)
  {}

  lemma NewQueuesHold(s: System)
    requires s == Established() || s == Swap(Established())
    ensures SetupsHold(s) && ResolutionsHold(s) && ResetsHold(s) && FreshHolds(s) && AgreeHold(s)
  {}

  lemma NewChecksHold(s: System)
    requires s == Established() || s == Swap(Established())
    ensures s.b.role == Other(s.a.role) && GuardsHold(s) && StreamIdsHold(s) && LabelledHolds(s) && ReaderHolds(s)
    ensures CoverHolds(s) && SetupEpochsHold(s) && BoundariesHold(s) && ResettingHolds(s)
  {}

  lemma NewEndpointsHold(s: System)
    requires s == Established() || s == Swap(Established())
    ensures Half(s)
  {
    NewSchedulesHold(s);
    NewLedgersHold(s);
    NewQueuesHold(s);
    NewChecksHold(s);
    hide KeysHold, PlanHolds, StreamsHold, ChainHolds, LockstepHolds, OpensHold, LockHolds, AcceptsHold, FreezeHolds,
      AckEpochsHold, SetupsHold, ResolutionsHold, ResetsHold, FreshHolds, AgreeHold, GuardsHold, StreamIdsHold,
      LabelledHolds, ReaderHolds, CoverHolds, SetupEpochsHold, BoundariesHold, ResettingHolds, Established;
  }

  lemma EstablishedSafe()
    ensures Safe(Established())
  {
    NewEndpointsHold(Established());
    NewEndpointsHold(Swap(Established()));
  }
}
