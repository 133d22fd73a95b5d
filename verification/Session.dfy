/** The two-endpoint session as a state machine.
    Every step is taken by endpoint `a` of a `System`; `Swap` exchanges the two
    endpoints, so the same step functions describe both sides. A step function
    answers `None` where the step cannot be taken. A step that the source ends by
    failing the session records why in `failure`; a failed session takes no more
    steps. Key derivation is ideal: roots are terms, equal only when derived alike. */
module Session {
  import opened Basics
  import opened Ledgers

  // ----- Keys -----------------------------------------------------------------------

  datatype Direction = ClientToServer | ServerToClient

  datatype Roots = EpochZero(direction: Direction) | NextEpoch(prior: Roots, direction: Direction, epoch: nat)

  function Other(role: Role): Role {
    if role.Client? then Server else Client
  }

  /** The direction in which an endpoint of this role sends. */
  function SendDirection(role: Role): Direction {
    if role.Client? then ClientToServer else ServerToClient
  }

  // ----- State of one endpoint ------------------------------------------------------

  datatype Keys = Keys(sendEpoch: nat, recvEpoch: nat, sendRoots: map<nat, Roots>, recvRoots: map<nat, Roots>)

  /** The next label to send, and the label the control reader expects. */
  datatype Labels = Labels(sendSequence: nat, recvEpoch: nat, recvSequence: nat)

  /** The payload of SESSION_KEY_UPDATE and of its ACK. */
  datatype Update = Update(transition: nat, nextEpoch: nat, watermark: nat)

  datatype Plan = Plan(update: Update, roots: Roots, streams: set<nat>)

  /** Progress of this endpoint's own rekey. It holds the rekey lock and the open lock in
      every phase but `Idle`, and a guard of the local responder freeze. */
  datatype LocalPhase =
    | Idle
    | Draining
    | WaitingFrontier(watermark: nat)
    | Prepared(plan: Plan)
    | Updating(plan: Plan, todo: set<nat>)
    | AwaitingAck(plan: Plan)
    | Acked(plan: Plan)
    | Switched(plan: Plan)

  /** Progress of the control loop on the peer's SESSION_KEY_UPDATE. It holds the
      peer responder freeze, and reads no control record, outside `Listening`. */
  datatype PeerPhase =
    | Listening
    | PeerDraining(update: Update)
    | AwaitingStreams(update: Update, streams: set<nat>)
    | Adopted(update: Update)
    | Acknowledged
    | Pruning(keep: bool)

  datatype Rekeys = Rekeys(
    local: LocalPhase, nextTransition: nat, pending: map<nat, Update>, lastAck: Option<Update>,
    peer: PeerPhase, recvTransition: nat)

  datatype OpenStage =
    | Allocated
    | Keyed(epoch: nat, receiveEpoch: nat)
    | SetupSent(epoch: nat, receiveEpoch: nat)
    | OpenSent(epoch: nat, receiveEpoch: nat)
    | Resolved(epoch: nat, receiveEpoch: nat)

  /** An open asks before each of its four operations whether a GOAWAY forbids it. The
      operation follows later, so what the open saw may be out of date by then. */
  datatype Clearance = Unchecked | Cleared(seen: Option<nat>)

  datatype Opening = Opening(id: nat, stage: OpenStage, clearance: Clearance)

  /** The opener's side. `leaving` holds abandoned IDs whose abandonment is not yet
      committed; the flag says that their STREAM_RESET has been written. */
  datatype Opens = Opens(
    nextId: nat, highWatermark: nat, outbound: Ledger, opening: Option<Opening>, leaving: map<nat, bool>)

  /** `Checked` has passed the checks on the preface and holds the boundary it saw. */
  datatype Responder =
    | Checked(epoch: nat, seen: Option<nat>)
    | SetupSeen(epoch: nat)
    | AckSent(epoch: nat, sendEpoch: nat)
    | Registered
    | HandedOver

  /** The epochs at which an acceptor set a stream up. */
  datatype Fixed = Fixed(recvEpoch: nat, sendEpoch: nat)

  /** The acceptor's side. `idle` counts responders that have read no preface yet;
      `fixed` remembers every stream that was answered. */
  datatype Accepts = Accepts(ledger: Ledger, idle: nat, serving: map<nat, Responder>, fixed: map<nat, Fixed>)

  /** A GOAWAY on its way out: asked for, the frontier read, the boundary stored. */
  datatype Notice = Quiet | Due | Noted(last: nat) | Stored(last: nat)

  /** GOAWAY is sent by the one close of a session, and by every open that finds the
      ledger exhausted. */
  datatype Goaways = Goaways(
    sent: Option<nat>, received: Option<nat>, closing: bool, closer: Notice, exhausted: Notice)

  /** The flags of local rekeys. A rekey that ends gives up its locks first, then its
      freeze guard, then its activity guard; `freezes` and `activities` count the guards
      of ended rekeys that are still alive. `overlapped` remembers that a rekey began
      while an older freeze guard was alive. */
  datatype Guards = Guards(frozen: bool, rekeying: bool, freezes: nat, activities: nat, overlapped: bool)

  datatype Stream = Stream(
    sendEpoch: nat, recvEpoch: nat,
    sendUpdate: Option<(nat, nat)>, sendUpdateAck: Option<(nat, nat)>, recvUpdate: Option<(nat, nat)>,
    localFin: bool, remoteFin: bool, reset: bool)

  datatype Failure =
    // Never recorded in a run of two honest endpoints.
    | ControlSequence | ControlEpoch | UnexpectedAck | NonConsecutiveTransition | NonConsecutiveEpoch
    | MissingRekeyRoots | MissingSendRoots | WatermarkMismatch | FrontierExceeded | TransitionChanged
    | EpochChanged | StreamRekeyPending | InvalidGoaway | InvalidResetId | LedgerRefused
    // Recorded in some runs of two honest endpoints.
    | RootsPruned | StaleSetup | GoawayChanged | SequenceExhausted | External

  datatype Endpoint = Endpoint(
    role: Role, keys: Keys, labels: Labels, rekeys: Rekeys, guards: Guards, opens: Opens, accepts: Accepts,
    goaways: Goaways, streams: map<nat, Stream>, resetting: set<nat>, failure: Option<Failure>)

  // ----- Channels -------------------------------------------------------------------

  datatype Body =
    | Ping(nonce: nat)
    | Pong(nonce: nat)
    | Reset(id: nat)
    | GoAway(last: nat)
    | KeyUpdate(update: Update)
    | KeyAck(update: Update)

  datatype Record = Record(epoch: nat, sequence: nat, body: Body)

  /** What is in flight on the carrier of one logical stream during its setup. */
  datatype Carrier = Carrier(setup: Option<nat>, openRecord: bool, openAck: Option<nat>)

  const IDLE_CARRIER := Carrier(None, false, None)

  function CarrierOf(carriers: map<nat, Carrier>, id: nat): Carrier {
    if id in carriers then carriers[id] else IDLE_CARRIER
  }

  datatype System = System(
    a: Endpoint, b: Endpoint, ab: seq<Record>, ba: seq<Record>, carriers: map<nat, Carrier>)

  function Swap(s: System): System {
    System(s.b, s.a, s.ba, s.ab, s.carriers)
  }

  function NewEndpoint(role: Role): Endpoint {
    Endpoint(
      role,
      Keys(0, 0, map[0 := EpochZero(SendDirection(role))], map[0 := EpochZero(SendDirection(Other(role)))]),
      Labels(0, 0, 0),
      Rekeys(Idle, 1, map[], None, Listening, 0),
      Guards(false, false, 0, 0, false),
      Opens(FirstId(role), 0, EmptyLedger(role), None, map[]),
      Accepts(EmptyLedger(Other(role)), 0, map[], map[]),
      Goaways(None, None, false, Quiet, Quiet), map[], {}, None)
  }

  function Established(): System {
    System(NewEndpoint(Client), NewEndpoint(Server), [], [], map[])
  }

  predicate Live(s: System) {
    s.a.failure.None? && s.b.failure.None?
  }

  function Fail(s: System, f: Failure): System {
    s.(a := s.a.(failure := Some(f)))
  }

  /** send_control_v2: labels one record and appends it to the control stream. */
  function Post(s: System, body: Body): System {
    if s.a.keys.sendEpoch !in s.a.keys.sendRoots then Fail(s, MissingSendRoots)
    else if s.a.labels.sendSequence >= U64_MAX then Fail(s, SequenceExhausted)
    else
      s.(a := s.a.(labels := s.a.labels.(sendSequence := s.a.labels.sendSequence + 1)),
         ab := s.ab + [Record(s.a.keys.sendEpoch, s.a.labels.sendSequence, body)])
  }

  // ----- Opening a stream -----------------------------------------------------------

  function WithOpens(s: System, o: Opens): System {
    s.(a := s.a.(opens := o))
  }

  function WithGoaways(s: System, g: Goaways): System {
    s.(a := s.a.(goaways := g))
  }

  /** The open lock is free, no rekey is active and no GOAWAY has arrived. */
  predicate MayOpen(e: Endpoint) {
    && e.opens.opening.None? && e.goaways.exhausted.Quiet? && e.rekeys.local.Idle?
    && !e.guards.rekeying && !e.goaways.closing && e.goaways.received.None?
  }

  function BeginOpen(s: System): Option<System> {
    var o := s.a.opens;
    if !MayOpen(s.a) then None
    else match MarkFss2(o.outbound, o.nextId)
      case Refused(_) =>
        Some(WithGoaways(WithOpens(s, o.(nextId := o.nextId + 2)), s.a.goaways.(exhausted := Due)))
      case Marked(ledger) => Some(WithOpens(s, o.(
        nextId := o.nextId + 2, highWatermark := o.nextId, outbound := ledger,
        opening := Some(Opening(o.nextId, Allocated, Unchecked)))))
  }

  function WithOpening(s: System, o: Opening): System {
    WithOpens(s, s.a.opens.(opening := Some(o)))
  }

  predicate OpenAllowed(received: Option<nat>, id: nat) {
    match received
    case None => true
    case Some(last) => last != 0 && id <= last
  }

  /** The check before the next operation of the open. */
  function CheckOpen(s: System): Option<System> {
    match s.a.opens.opening
    case Some(o) =>
      if !OpenAllowed(s.a.goaways.received, o.id) then None
      else Some(WithOpening(s, o.(clearance := Cleared(s.a.goaways.received))))
    case None => None
  }

  /** Takes the epochs of the stream to be. */
  function TakeEpochs(s: System): Option<System> {
    match s.a.opens.opening
    case Some(Opening(id, Allocated, Cleared(seen))) =>
      if s.a.keys.sendEpoch !in s.a.keys.sendRoots then None
      else Some(WithOpening(s, Opening(id, Keyed(s.a.keys.sendEpoch, s.a.keys.recvEpoch), Cleared(seen))))
    case _ => None
  }

  function WriteSetup(s: System): Option<System> {
    match s.a.opens.opening
    case Some(Opening(id, Keyed(e, r), Cleared(_))) =>
      Some(WithOpening(s, Opening(id, SetupSent(e, r), Unchecked))
           .(carriers := s.carriers[id := Carrier(Some(e), false, None)]))
    case _ => None
  }

  function WriteOpen(s: System): Option<System> {
    match s.a.opens.opening
    case Some(Opening(id, SetupSent(e, r), Cleared(_))) =>
      Some(WithOpening(s, Opening(id, OpenSent(e, r), Unchecked))
           .(carriers := s.carriers[id := CarrierOf(s.carriers, id).(openRecord := true)]))
    case _ => None
  }

  /** Reads OPEN_ACK at the expected receive epoch and resolves the ID. */
  function ReadOpenAck(s: System): Option<System> {
    match s.a.opens.opening
    case Some(Opening(id, OpenSent(e, r), Cleared(_))) =>
      var c := CarrierOf(s.carriers, id);
      if c.openAck != Some(r) || r !in s.a.keys.recvRoots then None
      else (match MarkTerminal(s.a.opens.outbound, id)
            case Refused(_) => Some(Fail(s, LedgerRefused))
            case Marked(ledger) =>
              Some(WithOpens(s, s.a.opens.(outbound := ledger, opening := Some(Opening(id, Resolved(e, r), Unchecked))))
                   .(carriers := s.carriers[id := c.(openAck := None)])))
    case _ => None
  }

  function NewStream(sendEpoch: nat, recvEpoch: nat): Stream {
    Stream(sendEpoch, recvEpoch, None, None, None, false, false, false)
  }

  function RegisterOpened(s: System): Option<System> {
    match s.a.opens.opening
    case Some(Opening(id, Resolved(e, r), Cleared(_))) =>
      Some(s.(a := s.a.(opens := s.a.opens.(opening := None), streams := s.a.streams[id := NewStream(e, r)])))
    case _ => None
  }

  /** The open fails, or its caller drops it, at any point: the guard takes over the
      ID and the open lock is released. */
  function Abandon(s: System): Option<System> {
    match s.a.opens.opening
    case Some(o) => Some(WithOpens(s, s.a.opens.(opening := None, leaving := s.a.opens.leaving[o.id := false])))
    case None => None
  }

  function WriteAbandonReset(s: System, id: nat): Option<System> {
    if id !in s.a.opens.leaving || s.a.opens.leaving[id] then None
    else Some(Post(WithOpens(s, s.a.opens.(leaving := s.a.opens.leaving[id := true])), Reset(id)))
  }

  function CommitAbandon(s: System, id: nat): Option<System> {
    if id !in s.a.opens.leaving || !s.a.opens.leaving[id] then None
    else match MarkTerminal(s.a.opens.outbound, id)
      case Refused(_) => Some(Fail(s, LedgerRefused))
      case Marked(ledger) => Some(WithOpens(s, s.a.opens.(outbound := ledger, leaving := s.a.opens.leaving - {id})))
  }

  // ----- Accepting a stream ---------------------------------------------------------

  function WithAccepts(s: System, c: Accepts): System {
    s.(a := s.a.(accepts := c))
  }

  predicate Frozen(s: System) {
    s.a.guards.frozen || !s.a.rekeys.peer.Listening?
  }

  predicate Drained(c: Accepts) {
    c.idle == 0 && c.serving == map[]
  }

  function EnterResponder(s: System): Option<System> {
    if Frozen(s) then None else Some(WithAccepts(s, s.a.accepts.(idle := s.a.accepts.idle + 1)))
  }

  /** A responder that could not read a well-formed preface leaves without a trace. */
  function GiveUpResponder(s: System): Option<System> {
    if s.a.accepts.idle == 0 then None else Some(WithAccepts(s, s.a.accepts.(idle := s.a.accepts.idle - 1)))
  }

  predicate RefusedByGoaway(g: Goaways, id: nat) {
    g.sent.Some? && (g.sent.value == 0 || id > g.sent.value)
  }

  /** Reads and checks one FSS2 preface: its epoch, then the boundary of a sent GOAWAY. */
  function ReadSetup(s: System, id: nat): Option<System> {
    var c := s.a.accepts;
    if c.idle == 0 || !ValidId(Other(s.a.role), id) || CarrierOf(s.carriers, id).setup.None? then None
    else
      var epoch := CarrierOf(s.carriers, id).setup.value;
      var taken := s.(carriers := s.carriers[id := CarrierOf(s.carriers, id).(setup := None)]);
      if epoch != s.a.keys.recvEpoch then Some(Fail(taken, StaleSetup))
      else if s.a.keys.recvEpoch !in s.a.keys.recvRoots || RefusedByGoaway(s.a.goaways, id) then
        Some(WithAccepts(taken, c.(idle := c.idle - 1)))
      else Some(WithAccepts(taken, c.(
        idle := c.idle - 1, serving := c.serving[id := Checked(epoch, s.a.goaways.sent)])))
  }

  /** Gets the ledger's lock and marks the ID; the stream of an abandoned ID is not served. */
  function MarkSetup(s: System, id: nat): Option<System> {
    var c := s.a.accepts;
    if id !in c.serving || !c.serving[id].Checked? then None
    else if StateOf(c.ledger, id) == AbandonedNoFss2 then
      (match MarkLateFss2(c.ledger, id)
       case Refused(_) => Some(Fail(s, LedgerRefused))
       case Marked(ledger) => Some(WithAccepts(s, c.(ledger := ledger, serving := c.serving - {id}))))
    else
      (match MarkFss2(c.ledger, id)
       case Refused(_) => Some(Fail(s, LedgerRefused))
       case Marked(ledger) => Some(WithAccepts(s, c.(
         ledger := ledger, serving := c.serving[id := SetupSeen(c.serving[id].epoch)]))))
  }

  function WriteOpenAck(s: System, id: nat): Option<System> {
    var c := s.a.accepts;
    var e := s.a.keys.sendEpoch;
    if id !in c.serving || !c.serving[id].SetupSeen? || !CarrierOf(s.carriers, id).openRecord then None
    else Some(WithAccepts(s, c.(serving := c.serving[id := AckSent(c.serving[id].epoch, e)],
                                fixed := c.fixed[id := Fixed(c.serving[id].epoch, e)]))
              .(carriers := s.carriers[id := CarrierOf(s.carriers, id).(openRecord := false, openAck := Some(e))]))
  }

  function RegisterAccepted(s: System, id: nat): Option<System> {
    var c := s.a.accepts;
    if id !in c.serving || !c.serving[id].AckSent? then None
    else Some(s.(a := s.a.(
      accepts := c.(serving := c.serving[id := Registered]),
      streams := s.a.streams[id := NewStream(c.serving[id].sendEpoch, c.serving[id].epoch)])))
  }

  function MarkAccepted(s: System, id: nat): Option<System> {
    var c := s.a.accepts;
    if id !in c.serving || !c.serving[id].Registered? then None
    else match MarkTerminal(c.ledger, id)
      case Refused(_) => Some(Fail(s, LedgerRefused))
      case Marked(ledger) => Some(WithAccepts(s, c.(ledger := ledger, serving := c.serving[id := HandedOver])))
  }

  function LeaveResponder(s: System, id: nat): Option<System> {
    var c := s.a.accepts;
    if id !in c.serving || !c.serving[id].HandedOver? then None
    else Some(WithAccepts(s, c.(serving := c.serving - {id})))
  }

  // ----- This endpoint's own rekey --------------------------------------------------

  function WithRekeys(s: System, r: Rekeys): System {
    s.(a := s.a.(rekeys := r))
  }

  function WithLocal(s: System, p: LocalPhase): System {
    WithRekeys(s, s.a.rekeys.(local := p))
  }

  function WithGuards(s: System, g: Guards): System {
    s.(a := s.a.(guards := g))
  }

  /** Both locks are free: the activity flag and the local freeze are set. */
  function BeginRekey(s: System): Option<System> {
    var g := s.a.guards;
    if !s.a.rekeys.local.Idle? || s.a.opens.opening.Some? || !s.a.goaways.exhausted.Quiet? || s.a.goaways.closing
    then None
    else Some(WithGuards(WithLocal(s, Draining),
                         g.(frozen := true, rekeying := true, overlapped := g.overlapped || g.freezes > 0)))
  }

  function FinishDraining(s: System): Option<System> {
    if !s.a.rekeys.local.Draining? || !Drained(s.a.accepts) then None
    else Some(WithLocal(s, WaitingFrontier(s.a.opens.highWatermark)))
  }

  /** The preparation times out or its caller gives up before anything was written. */
  function CancelPrepare(s: System): Option<System> {
    if s.a.rekeys.local.Draining? || s.a.rekeys.local.WaitingFrontier?
    then Some(WithGuards(WithLocal(s, Idle), s.a.guards.(frozen := false, rekeying := false)))
    else None
  }

  predicate Active(st: Stream) {
    !st.reset && !st.localFin
  }

  function ActiveSend(streams: map<nat, Stream>): set<nat> {
    set id | id in streams && Active(streams[id])
  }

  function ActiveReceive(streams: map<nat, Stream>): set<nat> {
    set id | id in streams && !streams[id].reset && !streams[id].remoteFin
  }

  function Prepare(s: System): Option<System> {
    var k := s.a.keys;
    match s.a.rekeys.local
    case WaitingFrontier(watermark) =>
      if Frontier(s.a.opens.outbound) < watermark || k.sendEpoch + 1 > U32_MAX then None
      else if Frontier(s.a.opens.outbound) > watermark then Some(Fail(s, FrontierExceeded))
      else if k.sendEpoch !in k.sendRoots then Some(Fail(s, MissingSendRoots))
      else
        var roots := NextEpoch(k.sendRoots[k.sendEpoch], SendDirection(s.a.role), k.sendEpoch + 1);
        var update := Update(s.a.rekeys.nextTransition, k.sendEpoch + 1, watermark);
        Some(WithLocal(s, Prepared(Plan(update, roots, ActiveSend(s.a.streams)))))
    case _ => None
  }

  function Commit(s: System): Option<System> {
    var k := s.a.keys;
    var r := s.a.rekeys;
    match r.local
    case Prepared(p) =>
      if r.nextTransition != p.update.transition then Some(Fail(s, TransitionChanged))
      else if k.sendEpoch + 1 != p.update.nextEpoch then Some(Fail(s, EpochChanged))
      else Some(s.(a := s.a.(
        keys := k.(sendRoots := k.sendRoots[p.update.nextEpoch := p.roots]),
        rekeys := r.(local := Updating(p, p.streams), nextTransition := r.nextTransition + 1,
                     pending := r.pending[p.update.transition := p.update]))))
    case _ => None
  }

  function WriteStreamUpdate(s: System, id: nat): Option<System> {
    match s.a.rekeys.local
    case Updating(p, todo) =>
      if id !in todo || id !in s.a.streams then None
      else if s.a.streams[id].sendUpdate.Some? then Some(Fail(s, StreamRekeyPending))
      else Some(s.(a := s.a.(
        rekeys := s.a.rekeys.(local := Updating(p, todo - {id})),
        streams := s.a.streams[id := s.a.streams[id].(
          sendUpdate := Some((p.update.transition, p.update.nextEpoch)), sendUpdateAck := None)])))
    case _ => None
  }

  function WriteKeyUpdate(s: System): Option<System> {
    match s.a.rekeys.local
    case Updating(p, todo) =>
      if todo != {} then None else Some(Post(WithLocal(s, AwaitingAck(p)), KeyUpdate(p.update)))
    case _ => None
  }

  /** The rekey task sees the session ACK and moves to the new send epoch. */
  function SwitchEpoch(s: System): Option<System> {
    match s.a.rekeys.local
    case Acked(p) => Some(s.(a := s.a.(
      keys := s.a.keys.(sendEpoch := p.update.nextEpoch),
      labels := s.a.labels.(sendSequence := 0),
      rekeys := s.a.rekeys.(local := Switched(p)))))
    case _ => None
  }

  function Retain(roots: map<nat, Roots>, epoch: nat): map<nat, Roots> {
    map e | e in roots && e == epoch :: roots[e]
  }

  predicate StreamsSwitched(streams: map<nat, Stream>, p: Plan) {
    forall id | id in p.streams ::
      id in streams && streams[id].sendUpdateAck == Some((p.update.transition, p.update.nextEpoch))
  }

  /** Every stream ACK has arrived: prune both root maps and release the locks. The two
      guards go later. */
  function FinishRekey(s: System): Option<System> {
    match s.a.rekeys.local
    case Switched(p) =>
      if !StreamsSwitched(s.a.streams, p) then None
      else Some(s.(a := s.a.(
        keys := s.a.keys.(sendRoots := Retain(s.a.keys.sendRoots, s.a.keys.sendEpoch),
                          recvRoots := Retain(s.a.keys.recvRoots, s.a.keys.recvEpoch)),
        rekeys := s.a.rekeys.(local := Idle),
        guards := s.a.guards.(freezes := s.a.guards.freezes + 1))))
    case _ => None
  }

  /** An ended rekey drops its freeze guard, which clears the flag whoever set it last. */
  function DropFreeze(s: System): Option<System> {
    var g := s.a.guards;
    if g.freezes == 0 then None
    else Some(WithGuards(s, g.(frozen := false, freezes := g.freezes - 1, activities := g.activities + 1)))
  }

  function DropActivity(s: System): Option<System> {
    var g := s.a.guards;
    if g.activities == 0 then None
    else Some(WithGuards(s, g.(rekeying := false, activities := g.activities - 1)))
  }

  // ----- The control loop -----------------------------------------------------------

  /** read_control_v2: checks the header of the next record against the expected label
      and finds its key. */
  function Accept(s: System): System
    requires s.ba != []
  {
    var r := s.ba[0];
    var l := s.a.labels;
    var popped := s.(ba := s.ba[1..]);
    if r.epoch == l.recvEpoch && r.sequence != l.recvSequence then Fail(popped, ControlSequence)
    else if r.epoch != l.recvEpoch
            && !(r.epoch == s.a.keys.recvEpoch && r.epoch == l.recvEpoch + 1 && r.sequence == 0)
    then Fail(popped, ControlEpoch)
    else if r.epoch !in s.a.keys.recvRoots then Fail(popped, RootsPruned)
    else popped.(a := s.a.(labels := l.(recvEpoch := r.epoch, recvSequence := r.sequence + 1)))
  }

  function ReceiveReset(s: System, id: nat): System {
    var t := if id in s.a.streams then WithStream(s, id, s.a.streams[id].(reset := true)) else s;
    if Known(Other(s.a.role), id) then
      (match MarkPeerReset(t.a.accepts.ledger, id)
       case Refused(_) => Fail(t, LedgerRefused)
       case Marked(ledger) => WithAccepts(t, t.a.accepts.(ledger := ledger)))
    else if Known(s.a.role, id) then
      (match MarkPeerReset(t.a.opens.outbound, id)
       case Refused(_) => Fail(t, LedgerRefused)
       case Marked(ledger) => WithOpens(t, t.a.opens.(outbound := ledger)))
    else Fail(t, InvalidResetId)
  }

  predicate ValidBoundary(role: Role, last: nat, high: nat) {
    last == 0 || (last <= high && last % 2 == (if role.Client? then 1 else 0))
  }

  function ReceiveGoAway(s: System, last: nat): System {
    if !ValidBoundary(s.a.role, last, s.a.opens.highWatermark) then Fail(s, InvalidGoaway)
    else if s.a.goaways.received.Some? && s.a.goaways.received.value != last then Fail(s, GoawayChanged)
    else s.(a := s.a.(goaways := s.a.goaways.(received := Some(last))))
  }

  function ReceiveAck(s: System, u: Update): System {
    var r := s.a.rekeys;
    if u.transition in r.pending && r.pending[u.transition] == u then
      var next := r.(pending := r.pending - {u.transition}, lastAck := Some(u));
      WithRekeys(s, if r.local.AwaitingAck? then next.(local := Acked(r.local.plan)) else next)
    else if u.transition !in r.pending && r.lastAck == Some(u) then s
    else Fail(s, UnexpectedAck)
  }

  function Dispatch(s: System, body: Body): System {
    match body
    case Ping(nonce) => Post(s, Pong(nonce))
    case Pong(_) => s
    case Reset(id) => ReceiveReset(s, id)
    case GoAway(last) => ReceiveGoAway(s, last)
    case KeyUpdate(u) => WithRekeys(s, s.a.rekeys.(peer := PeerDraining(u)))
    case KeyAck(u) => ReceiveAck(s, u)
  }

  function ReadControl(s: System): Option<System> {
    if s.ba == [] || !s.a.rekeys.peer.Listening? then None
    else
      var t := Accept(s);
      Some(if t.a.failure.Some? then t else Dispatch(t, s.ba[0].body))
  }

  /** Inbound responders have drained: check the peer's update and take the snapshot. */
  function CheckUpdate(s: System): Option<System> {
    var k := s.a.keys;
    match s.a.rekeys.peer
    case PeerDraining(u) =>
      if !Drained(s.a.accepts) then None
      else if u.transition == 0 || u.transition != s.a.rekeys.recvTransition + 1
      then Some(Fail(s, NonConsecutiveTransition))
      else if u.nextEpoch != k.recvEpoch + 1 then Some(Fail(s, NonConsecutiveEpoch))
      else if k.recvEpoch !in k.recvRoots then Some(Fail(s, MissingRekeyRoots))
      else
        var roots := NextEpoch(k.recvRoots[k.recvEpoch], SendDirection(Other(s.a.role)), u.nextEpoch);
        var t := s.(a := s.a.(keys := k.(recvRoots := k.recvRoots[u.nextEpoch := roots])));
        if Frontier(s.a.accepts.ledger) != u.watermark then Some(Fail(t, WatermarkMismatch))
        else Some(WithRekeys(t, t.a.rekeys.(peer := AwaitingStreams(u, ActiveReceive(s.a.streams)))))
    case _ => None
  }

  predicate StreamsUpdated(streams: map<nat, Stream>, u: Update, ids: set<nat>) {
    forall id | id in ids ::
      id in streams && (streams[id].recvUpdate == Some((u.transition, u.nextEpoch)) || streams[id].remoteFin)
  }

  function ClearUpdates(streams: map<nat, Stream>, u: Update, ids: set<nat>): map<nat, Stream> {
    map id | id in streams ::
      if id in ids && streams[id].recvUpdate == Some((u.transition, u.nextEpoch))
      then streams[id].(recvUpdate := None) else streams[id]
  }

  function AdoptUpdate(s: System): Option<System> {
    match s.a.rekeys.peer
    case AwaitingStreams(u, ids) =>
      if !StreamsUpdated(s.a.streams, u, ids) then None
      else Some(s.(a := s.a.(
        keys := s.a.keys.(recvEpoch := u.nextEpoch),
        rekeys := s.a.rekeys.(peer := Adopted(u), recvTransition := u.transition),
        streams := ClearUpdates(s.a.streams, u, ids))))
    case _ => None
  }

  function WriteKeyAck(s: System): Option<System> {
    match s.a.rekeys.peer
    case Adopted(u) => Some(Post(WithRekeys(s, s.a.rekeys.(peer := Acknowledged)), KeyAck(u)))
    case _ => None
  }

  /** Looks whether the flag of an active local rekey is up. */
  function NoteActivity(s: System): Option<System> {
    if !s.a.rekeys.peer.Acknowledged? then None
    else Some(WithRekeys(s, s.a.rekeys.(peer := Pruning(s.a.guards.rekeying))))
  }

  /** Prunes the receive roots unless the flag was up, then lifts the freeze. */
  function FinishPeerRekey(s: System): Option<System> {
    match s.a.rekeys.peer
    case Pruning(keep) =>
      var k := s.a.keys;
      Some(s.(a := s.a.(
        keys := if keep then k else k.(recvRoots := Retain(k.recvRoots, k.recvEpoch)),
        rekeys := s.a.rekeys.(peer := Listening))))
    case _ => None
  }

  // ----- Other control traffic ------------------------------------------------------

  function SendPing(s: System, nonce: nat): Option<System> {
    Some(Post(s, Ping(nonce)))
  }

  // ----- GOAWAY ---------------------------------------------------------------------

  function NoticeOf(g: Goaways, closer: bool): Notice {
    if closer then g.closer else g.exhausted
  }

  function WithNotice(g: Goaways, closer: bool, n: Notice): Goaways {
    if closer then g.(closer := n) else g.(exhausted := n)
  }

  /** A session is closed once; closing begins with a GOAWAY. */
  function BeginClosing(s: System): Option<System> {
    if s.a.goaways.closing then None else Some(WithGoaways(s, s.a.goaways.(closing := true, closer := Due)))
  }

  function NoteFrontier(s: System, closer: bool): Option<System> {
    var g := s.a.goaways;
    if !NoticeOf(g, closer).Due? then None
    else Some(WithGoaways(s, WithNotice(g, closer, Noted(Frontier(s.a.accepts.ledger)))))
  }

  function StoreBoundary(s: System, closer: bool): Option<System> {
    var g := s.a.goaways;
    match NoticeOf(g, closer)
    case Noted(last) => Some(WithGoaways(s, WithNotice(g.(sent := Some(last)), closer, Stored(last))))
    case _ => None
  }

  function PostBoundary(s: System, closer: bool): Option<System> {
    var g := s.a.goaways;
    match NoticeOf(g, closer)
    case Stored(last) => Some(Post(WithGoaways(s, WithNotice(g, closer, Quiet)), GoAway(last)))
    case _ => None
  }

  // ----- Streams after setup --------------------------------------------------------

  function WithStream(s: System, id: nat, st: Stream): System {
    s.(a := s.a.(streams := s.a.streams[id := st]))
  }

  /** The application holds a handle once the stream is registered and handed over. */
  predicate HasHandle(s: System, id: nat) {
    id in s.a.streams && !(id in s.a.accepts.serving && !s.a.accepts.serving[id].HandedOver?)
  }

  function WithResetting(s: System, ids: set<nat>): System {
    s.(a := s.a.(resetting := ids))
  }

  /** Marks the stream as reset. Its STREAM_RESET follows. */
  function ResetStream(s: System, id: nat): Option<System> {
    if !HasHandle(s, id) || s.a.streams[id].reset then None
    else Some(WithResetting(WithStream(s, id, s.a.streams[id].(reset := true)), s.a.resetting + {id}))
  }

  function WriteReset(s: System, id: nat): Option<System> {
    if id !in s.a.resetting then None
    else Some(Post(WithResetting(s, s.a.resetting - {id}), Reset(id)))
  }

  function CloseWrite(s: System, id: nat): Option<System> {
    if !HasHandle(s, id) then None
    else Some(WithStream(s, id, s.a.streams[id].(localFin := true)))
  }

  function Planned(local: LocalPhase): set<nat> {
    if local.Idle? || local.Draining? || local.WaitingFrontier? then {} else local.plan.streams
  }

  function Awaited(peer: PeerPhase): set<nat> {
    if peer.AwaitingStreams? then peer.streams else {}
  }

  /** The last reference to a stream goes; a rekey holds one on each of its streams. */
  function DropHandle(s: System, id: nat): Option<System> {
    if !HasHandle(s, id) || id in Planned(s.a.rekeys.local) || id in Awaited(s.a.rekeys.peer) then None
    else Some(s.(a := s.a.(streams := s.a.streams - {id})))
  }

  /** process_stream_update_ack on the pending update. */
  function ReadStreamAck(s: System, id: nat): Option<System> {
    if id !in s.a.streams || s.a.streams[id].sendUpdate.None? then None
    else
      var st := s.a.streams[id];
      Some(WithStream(s, id, st.(
        sendEpoch := st.sendUpdate.value.1, sendUpdate := None, sendUpdateAck := st.sendUpdate)))
  }

  /** handle_stream_update_locked on any payload it accepts. */
  function ReadStreamUpdate(s: System, id: nat, transition: nat): Option<System> {
    if id !in s.a.streams || transition == 0 then None
    else
      var st := s.a.streams[id];
      var next := st.recvEpoch + 1;
      var k := s.a.keys;
      if || st.recvUpdate.Some? || next > U32_MAX
         || (next !in k.recvRoots && st.recvEpoch !in k.recvRoots)
      then None
      else
        var d := SendDirection(Other(s.a.role));
        var roots := if next in k.recvRoots then k.recvRoots
                     else k.recvRoots[next := NextEpoch(k.recvRoots[st.recvEpoch], d, next)];
        Some(s.(a := s.a.(
          keys := k.(recvRoots := roots),
          streams := s.a.streams[id := st.(recvEpoch := next, recvUpdate := Some((transition, next)))])))
  }

  function ReadStreamFin(s: System, id: nat): Option<System> {
    if id !in s.a.streams then None
    else Some(WithStream(s, id, s.a.streams[id].(remoteFin := true)))
  }

  /** A carrier reset may destroy whatever is still in flight on it. */
  function LoseCarrier(s: System, id: nat): Option<System> {
    Some(s.(carriers := s.carriers - {id}))
  }

  // ----- Steps and runs -------------------------------------------------------------

  datatype OpenerStep =
    | SBeginOpen | SCheckOpen | STakeEpochs | SWriteSetup | SWriteOpen | SReadOpenAck | SRegisterOpened
    | SAbandon | SWriteAbandonReset(id: nat) | SCommitAbandon(id: nat)

  datatype AcceptorStep =
    | SEnterResponder | SGiveUpResponder | SReadSetup(id: nat) | SMarkSetup(id: nat) | SWriteOpenAck(id: nat)
    | SRegisterAccepted(id: nat) | SMarkAccepted(id: nat) | SLeaveResponder(id: nat)

  datatype RekeyStep =
    | SBeginRekey | SFinishDraining | SCancelPrepare | SPrepare | SCommit | SWriteStreamUpdate(id: nat)
    | SWriteKeyUpdate | SSwitchEpoch | SFinishRekey | SDropFreeze | SDropActivity

  datatype ControlStep =
    | SReadControl | SCheckUpdate | SAdoptUpdate | SWriteKeyAck | SNoteActivity | SFinishPeerRekey

  datatype GoawayStep =
    | SBeginClosing | SNoteFrontier(closer: bool) | SStoreBoundary(closer: bool) | SPostBoundary(closer: bool)

  datatype StreamStep =
    | SResetStream(id: nat) | SWriteReset(id: nat) | SCloseWrite(id: nat) | SDropHandle(id: nat)
    | SReadStreamAck(id: nat)
    | SReadStreamUpdate(id: nat, transition: nat) | SReadStreamFin(id: nat) | SLoseCarrier(id: nat)

  datatype Step =
    | OfOpener(opener: OpenerStep) | OfAcceptor(acceptor: AcceptorStep) | OfRekey(rekey: RekeyStep)
    | OfControl(control: ControlStep) | OfGoaway(goaway: GoawayStep) | OfStream(stream: StreamStep)
    | SPing(nonce: nat) | SFail

  function TakeOpener(s: System, step: OpenerStep): Option<System> {
    match step
    case SBeginOpen => BeginOpen(s)
    case SCheckOpen => CheckOpen(s)
    case STakeEpochs => TakeEpochs(s)
    case SWriteSetup => WriteSetup(s)
    case SWriteOpen => WriteOpen(s)
    case SReadOpenAck => ReadOpenAck(s)
    case SRegisterOpened => RegisterOpened(s)
    case SAbandon => Abandon(s)
    case SWriteAbandonReset(id) => WriteAbandonReset(s, id)
    case SCommitAbandon(id) => CommitAbandon(s, id)
  }

  function TakeAcceptor(s: System, step: AcceptorStep): Option<System> {
    match step
    case SEnterResponder => EnterResponder(s)
    case SGiveUpResponder => GiveUpResponder(s)
    case SReadSetup(id) => ReadSetup(s, id)
    case SMarkSetup(id) => MarkSetup(s, id)
    case SWriteOpenAck(id) => WriteOpenAck(s, id)
    case SRegisterAccepted(id) => RegisterAccepted(s, id)
    case SMarkAccepted(id) => MarkAccepted(s, id)
    case SLeaveResponder(id) => LeaveResponder(s, id)
  }

  function TakeRekey(s: System, step: RekeyStep): Option<System> {
    match step
    case SBeginRekey => BeginRekey(s)
    case SFinishDraining => FinishDraining(s)
    case SCancelPrepare => CancelPrepare(s)
    case SPrepare => Prepare(s)
    case SCommit => Commit(s)
    case SWriteStreamUpdate(id) => WriteStreamUpdate(s, id)
    case SWriteKeyUpdate => WriteKeyUpdate(s)
    case SSwitchEpoch => SwitchEpoch(s)
    case SFinishRekey => FinishRekey(s)
    case SDropFreeze => DropFreeze(s)
    case SDropActivity => DropActivity(s)
  }

  function TakeControl(s: System, step: ControlStep): Option<System> {
    match step
    case SReadControl => ReadControl(s)
    case SCheckUpdate => CheckUpdate(s)
    case SAdoptUpdate => AdoptUpdate(s)
    case SWriteKeyAck => WriteKeyAck(s)
    case SNoteActivity => NoteActivity(s)
    case SFinishPeerRekey => FinishPeerRekey(s)
  }

  function TakeGoaway(s: System, step: GoawayStep): Option<System> {
    match step
    case SBeginClosing => BeginClosing(s)
    case SNoteFrontier(closer) => NoteFrontier(s, closer)
    case SStoreBoundary(closer) => StoreBoundary(s, closer)
    case SPostBoundary(closer) => PostBoundary(s, closer)
  }

  function TakeStream(s: System, step: StreamStep): Option<System> {
    match step
    case SResetStream(id) => ResetStream(s, id)
    case SWriteReset(id) => WriteReset(s, id)
    case SCloseWrite(id) => CloseWrite(s, id)
    case SDropHandle(id) => DropHandle(s, id)
    case SReadStreamAck(id) => ReadStreamAck(s, id)
    case SReadStreamUpdate(id, transition) => ReadStreamUpdate(s, id, transition)
    case SReadStreamFin(id) => ReadStreamFin(s, id)
    case SLoseCarrier(id) => LoseCarrier(s, id)
  }

  /** The step of endpoint `a`, or `None` where it cannot be taken. */
  function Take(s: System, step: Step): Option<System> {
    match step
    case OfOpener(opener) => TakeOpener(s, opener)
    case OfAcceptor(acceptor) => TakeAcceptor(s, acceptor)
    case OfRekey(rekey) => TakeRekey(s, rekey)
    case OfControl(control) => TakeControl(s, control)
    case OfGoaway(goaway) => TakeGoaway(s, goaway)
    case OfStream(stream) => TakeStream(s, stream)
    case SPing(nonce) => SendPing(s, nonce)
    case SFail => Some(Fail(s, External))
  }

  /** One step of one endpoint. */
  datatype Move = ByA(step: Step) | ByB(step: Step)

  function Play(s: System, move: Move): Option<System> {
    if !Live(s) then None
    else match move
      case ByA(step) => Take(s, step)
      case ByB(step) =>
        match Take(Swap(s), step)
        case None => None
        case Some(t) => Some(Swap(t))
  }

  function PlayAll(s: System, moves: seq<Move>): Option<System>
    decreases |moves|
  {
    if moves == [] then Some(s)
    else match Play(s, moves[0])
      case None => None
      case Some(t) => PlayAll(t, moves[1..])
  }

  /** `s` can be reached from the state that the handshake leaves. */
  ghost predicate Reachable(s: System) {
    exists moves :: PlayAll(Established(), moves) == Some(s)
  }
}
