/** Runs of two honest endpoints that end in a tolerated failure, or in a state that
    a reader might take to be impossible. */
module SessionExamples {
  import opened Basics
  import opened Ledgers
  import opened Session
  import opened SessionTheorems
  import opened SessionGoaways
  import opened SessionStreams

  // ----- Building runs --------------------------------------------------------------

  /** One more step of endpoint `a`; a step of `b` is one of `a` in the swapped state. */
  lemma Next(s: System, step: Step) returns (t: System)
    requires Occurs(s) && Live(s) && Take(s, step).Some?
    ensures t == Take(s, step).value && Occurs(t) && Occurs(Swap(t))
  {
    hide Occurs, Take;
    t := Take(s, step).value;
    StepOccurs(s, step, t);
  }

  lemma Start()
    ensures Occurs(Established()) && Occurs(Swap(Established()))
  {
    hide Take;
    assert PlayAll(Established(), []) == Some(Established());
    assert Swap(Swap(Established())) == Established();
  }

  // ----- A rekey with no active stream ----------------------------------------------

  predicate CanPrepare(e: Endpoint) {
    && e.failure.None? && e.rekeys.local.Idle? && e.opens.opening.None?
    && e.goaways.exhausted.Quiet? && !e.goaways.closing
    && e.keys.sendEpoch in e.keys.sendRoots && e.keys.sendEpoch < U32_MAX
    && Drained(e.accepts) && ActiveSend(e.streams) == {} && Frontier(e.opens.outbound) == e.opens.highWatermark
  }

  function NextPlan(e: Endpoint): Plan
    requires e.keys.sendEpoch in e.keys.sendRoots
  {
    var next := e.keys.sendEpoch + 1;
    Plan(Update(e.rekeys.nextTransition, next, e.opens.highWatermark),
         NextEpoch(e.keys.sendRoots[e.keys.sendEpoch], SendDirection(e.role), next), {})
  }

  lemma PrepareRun(s: System) returns (t: System)
    requires Occurs(s) && Live(s) && CanPrepare(s.a)
    ensures Occurs(t) && Occurs(Swap(t))
    ensures t == s.(a := s.a.(
                      rekeys := s.a.rekeys.(local := Prepared(NextPlan(s.a))),
                      guards := s.a.guards.(frozen := true, rekeying := true,
                                            overlapped := s.a.guards.overlapped || s.a.guards.freezes > 0)))
  {
    hide Occurs, Frontier;
    var s1 := Next(s, OfRekey(SBeginRekey));
    var s2 := Next(s1, OfRekey(SFinishDraining));
    t := Next(s2, OfRekey(SPrepare));
  }

  predicate CanAnnounce(e: Endpoint) {
    && e.rekeys.local.Prepared? && e.rekeys.local.plan.streams == {} && e.rekeys.pending == map[]
    && e.rekeys.local.plan.update.transition == e.rekeys.nextTransition
    && e.rekeys.local.plan.update.nextEpoch == e.keys.sendEpoch + 1
    && e.keys.sendEpoch in e.keys.sendRoots && e.labels.sendSequence < U64_MAX
  }

  /** The state after `a` has announced the update that it prepared. */
  function Announced(s: System): System
    requires CanAnnounce(s.a)
  {
    var p := s.a.rekeys.local.plan;
    s.(a := s.a.(
         keys := s.a.keys.(sendRoots := s.a.keys.sendRoots[p.update.nextEpoch := p.roots]),
         labels := s.a.labels.(sendSequence := s.a.labels.sendSequence + 1),
         rekeys := s.a.rekeys.(local := AwaitingAck(p), nextTransition := s.a.rekeys.nextTransition + 1,
                               pending := map[p.update.transition := p.update])),
       ab := s.ab + [Record(s.a.keys.sendEpoch, s.a.labels.sendSequence, KeyUpdate(p.update))])
  }

  lemma AnnounceRun(s: System) returns (t: System)
    requires Occurs(s) && Live(s) && CanAnnounce(s.a)
    ensures Occurs(t) && Occurs(Swap(t)) && t == Announced(s)
  {
    hide Occurs;
    var s1 := Next(s, OfRekey(SCommit));
    t := Next(s1, OfRekey(SWriteKeyUpdate));
  }

  predicate CanAdopt(s: System, u: Update) {
    && Live(s) && s.ba != [] && s.ba[0].body == KeyUpdate(u) && Accept(s).a.failure.None?
    && s.a.keys.sendEpoch in s.a.keys.sendRoots && s.a.labels.sendSequence < U64_MAX
    && s.a.keys.recvEpoch in s.a.keys.recvRoots
    && s.a.rekeys.peer.Listening? && s.a.rekeys.recvTransition == s.a.keys.recvEpoch
    && Drained(s.a.accepts) && ActiveReceive(s.a.streams) == {}
    && u == Update(s.a.keys.recvEpoch + 1, s.a.keys.recvEpoch + 1, Frontier(s.a.accepts.ledger))
  }

  function NextRecvRoots(s: System): map<nat, Roots>
    requires s.a.keys.recvEpoch in s.a.keys.recvRoots
  {
    var e := s.a.keys.recvEpoch;
    s.a.keys.recvRoots[e + 1 := NextEpoch(s.a.keys.recvRoots[e], SendDirection(Other(s.a.role)), e + 1)]
  }

  lemma CheckRun(s: System, u: Update) returns (t: System)
    requires Occurs(s) && CanAdopt(s, u)
    ensures Occurs(t)
    ensures t == s.(a := s.a.(keys := s.a.keys.(recvRoots := NextRecvRoots(s)), labels := Accept(s).a.labels,
                              rekeys := s.a.rekeys.(peer := AwaitingStreams(u, {}))),
                    ba := s.ba[1..])
  {
    hide Occurs, Frontier;
    var s1 := Next(s, OfControl(SReadControl));
    t := Next(s1, OfControl(SCheckUpdate));
  }

  /** The state after `a` has adopted and acknowledged, and has pruned unless it rekeys itself. */
  function AdoptedState(s: System, u: Update): System
    requires CanAdopt(s, u)
  {
    var roots := if s.a.guards.rekeying then NextRecvRoots(s) else Retain(NextRecvRoots(s), u.nextEpoch);
    var l := Accept(s).a.labels;
    s.(a := s.a.(
         keys := s.a.keys.(recvEpoch := u.nextEpoch, recvRoots := roots),
         labels := l.(sendSequence := l.sendSequence + 1),
         rekeys := s.a.rekeys.(recvTransition := u.transition)),
       ab := s.ab + [Record(s.a.keys.sendEpoch, s.a.labels.sendSequence, KeyAck(u))],
       ba := s.ba[1..])
  }

  lemma AdoptRun(s: System, u: Update) returns (t: System)
    requires Occurs(s) && CanAdopt(s, u)
    ensures Occurs(t) && Occurs(Swap(t)) && t == AdoptedState(s, u)
  {
    hide Occurs, Frontier;
    var s1 := CheckRun(s, u);
    assert ClearUpdates(s1.a.streams, u, {}) == s1.a.streams;
    var s2 := Next(s1, OfControl(SAdoptUpdate));
    var s3 := Next(s2, OfControl(SWriteKeyAck));
    var s4 := Next(s3, OfControl(SNoteActivity));
    t := Next(s4, OfControl(SFinishPeerRekey));
  }

  predicate CanSwitch(s: System) {
    && Live(s) && s.a.rekeys.local.AwaitingAck? && s.a.rekeys.local.plan.streams == {} && s.a.rekeys.peer.Listening?
    && s.a.rekeys.pending == map[s.a.rekeys.local.plan.update.transition := s.a.rekeys.local.plan.update]
    && s.ba != [] && s.ba[0].body == KeyAck(s.a.rekeys.local.plan.update) && Accept(s).a.failure.None?
  }

  lemma SwitchRun(s: System) returns (t: System)
    requires Occurs(s) && CanSwitch(s)
    ensures Occurs(t)
    ensures var p := s.a.rekeys.local.plan;
            t == s.(a := s.a.(
                      keys := s.a.keys.(sendEpoch := p.update.nextEpoch),
                      labels := Accept(s).a.labels.(sendSequence := 0),
                      rekeys := s.a.rekeys.(local := Switched(p), pending := map[], lastAck := Some(p.update))),
                    ba := s.ba[1..])
  {
    hide Occurs;
    var p := s.a.rekeys.local.plan;
    assert s.a.rekeys.pending - {p.update.transition} == map[];
    var s1 := Next(s, OfControl(SReadControl));
    t := Next(s1, OfRekey(SSwitchEpoch));
  }

  lemma EmptyFrontiers()
    ensures Frontier(EmptyLedger(Client)) == 0 && Frontier(EmptyLedger(Server)) == 0
  {
  }

  const FIRST: Update := Update(1, 1, 0)

  function SecondRoots(d: Direction): map<nat, Roots> {
    map[0 := EpochZero(d), 1 := NextEpoch(EpochZero(d), d, 1)]
  }

  /** Endpoint `a` after it has announced its first update in a new session. */
  function Announcer(role: Role): Endpoint {
    var d := SendDirection(role);
    NewEndpoint(role).(
      keys := Keys(0, 0, SecondRoots(d), map[0 := EpochZero(SendDirection(Other(role)))]),
      labels := Labels(1, 0, 0),
      rekeys := Rekeys(AwaitingAck(Plan(FIRST, NextEpoch(EpochZero(d), d, 1), {})), 2, map[1 := FIRST], None,
                       Listening, 0),
      guards := Guards(true, true, 0, 0, false))
  }

  lemma FirstAnnouncement() returns (t: System)
    ensures Occurs(t) && Occurs(Swap(t))
    ensures t == System(Announcer(Client), NewEndpoint(Server), [Record(0, 0, KeyUpdate(FIRST))], [], map[])
  {
    hide Occurs, Frontier;
    Start();
    EmptyFrontiers();
    var s := PrepareRun(Established());
    t := AnnounceRun(s);
    assert SecondRoots(ClientToServer) == s.a.keys.sendRoots[1 := s.a.rekeys.local.plan.roots];
  }

  // ----- A control record sent during a rekey ---------------------------------------

  /** A PING that follows SESSION_KEY_UPDATE, sent before its ACK arrives, fails the reader. */
  lemma PingDuringRekeyIsRefused()
    ensures exists s :: Occurs(s) && Live(s) && s.ba != [] && s.ba[0].body.Ping?
                        && ReadControl(s).Some? && ReadControl(s).value.a.failure == Some(RootsPruned)
  {
    hide Occurs, Frontier;
    EmptyFrontiers();
    var s1 := FirstAnnouncement();
    var s2 := Next(s1, SPing(7));
    var s3 := AdoptRun(Swap(s2), FIRST);
    assert s3.ba == [Record(0, 1, Ping(7))];
    assert ReadControl(s3).Some? && ReadControl(s3).value.a.failure == Some(RootsPruned);
  }

  // ----- A preface that arrives after its stream was abandoned ----------------------

  /** The client has allocated ID 1 and is about to write its preface, or has done so. */
  function Opened(stage: OpenStage, clearance: Clearance): Opens {
    Opens(3, 1, Ledger(Client, map[1 := OpenSeen]), Some(Opening(1, stage, clearance)), map[])
  }

  lemma SetupWritten() returns (t: System)
    ensures Occurs(t) && Occurs(Swap(t))
    ensures t == System(NewEndpoint(Client).(opens := Opened(SetupSent(0, 0), Unchecked)), NewEndpoint(Server), [], [],
                        map[1 := Carrier(Some(0), false, None)])
  {
    hide Occurs, Frontier;
    Start();
    var s1 := Next(Established(), OfOpener(SBeginOpen));
    assert s1.a.opens == Opened(Allocated, Unchecked);
    var s2 := Next(s1, OfOpener(SCheckOpen));
    var s3 := Next(s2, OfOpener(STakeEpochs));
    t := Next(s3, OfOpener(SWriteSetup));
  }

  /** The client has abandoned stream 1 after writing its preface. */
  lemma AbandonedOpen() returns (t: System)
    ensures Occurs(t) && Occurs(Swap(t))
    ensures t == System(NewEndpoint(Client).(
                          labels := Labels(1, 0, 0),
                          opens := Opens(3, 1, Ledger(Client, map[1 := UsedOrTerminal]), None, map[])),
                        NewEndpoint(Server), [Record(0, 0, Reset(1))], [], map[1 := Carrier(Some(0), false, None)])
  {
    hide Occurs, Frontier;
    var s2 := SetupWritten();
    var s3 := Next(s2, OfOpener(SAbandon));
    assert s3.a.opens == Opens(3, 1, Ledger(Client, map[1 := OpenSeen]), None, map[1 := false]);
    var s4 := Next(s3, OfOpener(SWriteAbandonReset(1)));
    assert s4.a.opens.leaving == map[1 := true] && s4.ab == [Record(0, 0, Reset(1))];
    t := Next(s4, OfOpener(SCommitAbandon(1)));
    assert map[1 := true] - {1} == map[] && map[1 := OpenSeen][1 := UsedOrTerminal] == map[1 := UsedOrTerminal];
  }

  lemma SettledOne(l: Ledger)
    requires l.opener == Client && l.states.Keys == {1} && IsSettled(l.states[1])
    ensures Frontier(l) == 1
  {
    FrontierOfPrefix(l, 1);
  }

  /** The peer learns of the abandonment, adopts a new epoch, and only then meets the preface. */
  lemma LateSetupFailsSession()
    ensures exists s, id :: Occurs(s) && Live(s) && StateOf(s.a.accepts.ledger, id) == AbandonedNoFss2
                            && ReadSetup(s, id).Some? && ReadSetup(s, id).value.a.failure == Some(StaleSetup)
  {
    hide Occurs, Frontier;
    var s0 := AbandonedOpen();
    SettledOne(s0.a.opens.outbound);
    var s1 := PrepareRun(s0);
    var s2 := AnnounceRun(s1);
    assert s2.ab == [Record(0, 0, Reset(1)), Record(0, 1, KeyUpdate(Update(1, 1, 1)))];
    var s3 := Next(Swap(s2), OfControl(SReadControl));
    var abandoned := Ledger(Client, map[1 := AbandonedNoFss2]);
    assert s3.a.accepts == Accepts(abandoned, 0, map[], map[]);
    SettledOne(abandoned);
    var s4 := LateEpoch(s3);
    var s5 := Next(s4, OfAcceptor(SEnterResponder));
    assert ReadSetup(s5, 1).Some?;
    assert StateOf(s5.a.accepts.ledger, 1) == AbandonedNoFss2;
  }

  lemma LateEpoch(s: System) returns (t: System)
    requires Occurs(s) && CanAdopt(s, Update(1, 1, 1)) && s.a.keys.recvEpoch == 0
    ensures Occurs(t) && t.a.keys.recvEpoch == 1 && t.carriers == s.carriers && t.b == s.b && Live(t)
    ensures t.a.accepts == s.a.accepts && t.a.guards == s.a.guards && t.a.rekeys.peer == s.a.rekeys.peer
    ensures t.a.role == s.a.role
  {
    hide Occurs, Frontier;
    t := AdoptRun(s, Update(1, 1, 1));
  }

  // ----- A boundary that moves ------------------------------------------------------

  /** `a` may open and abandon one more stream, and `b` reads of it at once. */
  ghost predicate CanCycle(s: System) {
    && Live(s) && MayOpen(s.a) && s.b.role == Other(s.a.role) && s.a.opens.leaving == map[] && s.ab == []
    && s.a.keys.sendEpoch in s.a.keys.sendRoots && s.a.opens.outbound.opener == s.a.role
    && ValidId(s.a.role, s.a.opens.nextId) && (forall id | id in s.a.opens.outbound.states :: id < s.a.opens.nextId)
    && s.b.rekeys.peer.Listening? && s.b.accepts.ledger.opener == s.a.role && s.b.streams == map[]
    && s.b.labels.recvEpoch == s.a.keys.sendEpoch && s.b.labels.recvSequence == s.a.labels.sendSequence
    && s.b.labels.recvEpoch in s.b.keys.recvRoots
  }

  /** From `s` to `t` nothing has happened but streams that were opened and abandoned. */
  predicate Cycled(s: System, t: System) {
    && t == s.(a := s.a.(opens := t.a.opens, labels := s.a.labels.(sendSequence := t.a.labels.sendSequence)),
               b := s.b.(accepts := t.b.accepts, labels := t.b.labels))
    && t.b.accepts == s.b.accepts.(ledger := t.b.accepts.ledger)
    && t.b.labels == s.b.labels.(recvSequence := t.b.labels.recvSequence)
  }

  lemma OpenAndLeave(s: System) returns (t: System)
    requires Occurs(s) && CanCycle(s) && Known(s.a.role, s.a.opens.nextId) && s.a.labels.sendSequence < U64_MAX
    ensures Occurs(Swap(t)) && Live(t) && t.a.opens.leaving == map[] && t.a.opens.opening.None?
    ensures t == s.(a := s.a.(opens := t.a.opens, labels := t.a.labels), ab := t.ab)
    ensures t.a.labels == s.a.labels.(sendSequence := s.a.labels.sendSequence + 1)
    ensures t.ab == [Record(s.a.keys.sendEpoch, s.a.labels.sendSequence, Reset(s.a.opens.nextId))]
    ensures t.a.opens.nextId == s.a.opens.nextId + 2 && t.a.opens.outbound.opener == s.a.role
    ensures forall id | id in t.a.opens.outbound.states :: id < t.a.opens.nextId
  {
    hide Occurs, Known, ValidId;
    var id := s.a.opens.nextId;
    var r := OpenAndDrop(s);
    var s3 := Next(r, OfOpener(SWriteAbandonReset(id)));
    t := Next(s3, OfOpener(SCommitAbandon(id)));
  }

  lemma OpenAndDrop(s: System) returns (t: System)
    requires Occurs(s) && CanCycle(s) && Known(s.a.role, s.a.opens.nextId)
    ensures Occurs(t) && t == s.(a := s.a.(opens := t.a.opens))
    ensures var id := s.a.opens.nextId;
            t.a.opens == Opens(id + 2, id, Ledgers.Put(s.a.opens.outbound, id, OpenSeen), None, map[id := false])
  {
    hide Occurs, Known, ValidId;
    var s1 := Next(s, OfOpener(SBeginOpen));
    t := Next(s1, OfOpener(SAbandon));
  }

  lemma Cycle(s: System) returns (t: System)
    requires Occurs(s) && CanCycle(s) && Known(s.a.role, s.a.opens.nextId) && s.a.labels.sendSequence < U64_MAX
    ensures Occurs(t) && CanCycle(t) && Cycled(s, t)
    ensures t.a.opens.nextId == s.a.opens.nextId + 2 && t.a.labels.sendSequence == s.a.labels.sendSequence + 1
  {
    hide Occurs, Known;
    var r := OpenAndLeave(s);
    var u := Next(Swap(r), OfControl(SReadControl));
    t := Swap(u);
  }

  /** `a` opens and abandons streams until its ledger is full. */
  lemma {:induction false} Exhaust(s: System, n: nat) returns (t: System)
    requires Occurs(s) && CanCycle(s) && s.a.role == Server
    requires s.a.opens.nextId + 2 * n == 2 * MAX_LEDGER_SLOTS + 2 && s.a.labels.sendSequence + n <= MAX_LEDGER_SLOTS
    ensures Occurs(t) && CanCycle(t) && Cycled(s, t)
    ensures t.a.opens.nextId == 2 * MAX_LEDGER_SLOTS + 2 && t.a.labels.sendSequence == s.a.labels.sendSequence + n
    decreases n
  {
    hide Occurs, CanCycle;
    if n == 0 {
      t := s;
    } else {
      assert Known(Server, s.a.opens.nextId) by { SlotLeft(s); }
      var r := Cycle(s);
      t := Exhaust(r, n - 1);
    }
  }

  lemma SlotLeft(s: System)
    requires CanCycle(s) && s.a.role == Server && s.a.opens.nextId < 2 * MAX_LEDGER_SLOTS + 2
    ensures Known(Server, s.a.opens.nextId)
  {
  }

  predicate LedgerFull(e: Endpoint) {
    MayOpen(e) && e.opens.outbound.opener == e.role && !Known(e.role, e.opens.nextId)
  }

  /** An open that finds the ledger full sends GOAWAY at the frontier. */
  lemma ExhaustedOpen(s: System, last: nat) returns (t: System)
    requires Occurs(s) && Live(s) && LedgerFull(s.a) && Frontier(s.a.accepts.ledger) == last
    requires s.a.keys.sendEpoch in s.a.keys.sendRoots && s.a.labels.sendSequence < U64_MAX
    ensures Occurs(t) && Occurs(Swap(t))
    ensures t == s.(a := s.a.(opens := s.a.opens.(nextId := s.a.opens.nextId + 2),
                              goaways := s.a.goaways.(sent := Some(last)),
                              labels := s.a.labels.(sendSequence := s.a.labels.sendSequence + 1)),
                    ab := s.ab + [Record(s.a.keys.sendEpoch, s.a.labels.sendSequence, GoAway(last))])
  {
    hide Occurs, Frontier, Known;
    var s1 := Next(s, OfOpener(SBeginOpen));
    var s2 := Next(s1, OfGoaway(SNoteFrontier(false)));
    var s3 := Next(s2, OfGoaway(SStoreBoundary(false)));
    t := Next(s3, OfGoaway(SPostBoundary(false)));
  }

  /** The server's ledger is full while the client's reset of stream 1 is on its way. */
  lemma FullLedger() returns (t: System)
    ensures Occurs(t) && CanCycle(t) && t.a.opens.nextId == 2 * MAX_LEDGER_SLOTS + 2
    ensures t.a.labels == Labels(MAX_LEDGER_SLOTS, 0, 0) && t.ba == [Record(0, 0, Reset(1))]
    ensures t.a == NewEndpoint(Server).(opens := t.a.opens, labels := t.a.labels)
    ensures t.b.goaways == NewEndpoint(Client).goaways && t.b.opens.highWatermark == 1 && t.b.role == Client
  {
    hide Occurs, Frontier;
    var s := AbandonedOpen();
    t := Exhaust(Swap(s), MAX_LEDGER_SLOTS);
  }

  lemma TwoBoundaries() returns (t: System)
    ensures Occurs(t) && Occurs(Swap(t)) && Live(t) && t.b.role == Client
    ensures |t.ab| == 2 && t.ab[0] == Record(0, t.b.labels.recvSequence, GoAway(0))
    ensures t.ab[1] == Record(0, t.b.labels.recvSequence + 1, GoAway(1))
    ensures t.b.labels.recvEpoch == 0 && 0 in t.b.keys.recvRoots && t.b.rekeys.peer.Listening?
    ensures t.b.goaways == NewEndpoint(Client).goaways && t.b.opens.highWatermark == 1 && !t.a.goaways.closing
  {
    hide Occurs, Frontier;
    EmptyFrontiers();
    var s0 := FullLedger();
    var s1 := ExhaustedOpen(s0, 0);
    var s2 := Next(s1, OfControl(SReadControl));
    assert s2.a.accepts.ledger == Ledger(Client, map[1 := AbandonedNoFss2]);
    SettledOne(s2.a.accepts.ledger);
    t := ExhaustedOpen(s2, 1);
  }

  /** An endpoint whose ledger is full announces a boundary at every open it tries. When the
      frontier has moved in between, the peer refuses the second one. */
  lemma MovedBoundaryIsRefused()
    ensures exists s :: Occurs(s) && Live(s) && !s.a.goaways.closing && !s.b.goaways.closing
                        && s.ba != [] && s.ba[0].body.GoAway?
                        && ReadControl(s).Some? && ReadControl(s).value.a.failure == Some(GoawayChanged)
  {
    hide Occurs, Frontier;
    var s := TwoBoundaries();
    var t := Next(Swap(s), OfControl(SReadControl));
    assert t.ba[0].body == GoAway(1);
    assert ReadControl(t).Some? && ReadControl(t).value.a.failure == Some(GoawayChanged);
  }

  // ----- GOAWAY beside a running setup ----------------------------------------------

  /** The server serves a stream past the boundary that it has already stored. */
  lemma StreamServedAfterGoAway()
    ensures exists s, id :: Occurs(s) && Live(s) && !s.a.goaways.closing && !s.b.goaways.closing
                            && RefusedByGoaway(s.a.goaways, id) && !Serves(s.a.accepts, id)
                            && MarkSetup(s, id).Some? && Serves(MarkSetup(s, id).value.a.accepts, id)
  {
    hide Occurs, Frontier;
    EmptyFrontiers();
    var s0 := SetupWritten();
    var s1 := Next(Swap(s0), OfAcceptor(SEnterResponder));
    var s2 := Next(s1, OfAcceptor(SReadSetup(1)));
    var s3 := Exhaust(s2, MAX_LEDGER_SLOTS);
    var s4 := ExhaustedOpen(s3, 0);
    assert RefusedByGoaway(s4.a.goaways, 1) && !Serves(s4.a.accepts, 1);
    assert MarkSetup(s4, 1).Some? && Serves(MarkSetup(s4, 1).value.a.accepts, 1);
  }

  /** The server has answered stream 1 and the client is about to register it. */
  lemma AnsweredOpen() returns (t: System)
    ensures Occurs(t) && Live(t) && Occurs(Swap(t)) && t.ba == [] && t.a == NewEndpoint(Client).(opens := t.a.opens)
    ensures t.a.opens.opening == Some(Opening(1, Resolved(0, 0), Cleared(None)))
    ensures t.b == NewEndpoint(Server).(accepts := t.b.accepts)
    ensures t.b.accepts == Accepts(Ledger(Client, map[1 := OpenSeen]), 0, map[1 := AckSent(0, 0)],
                                   map[1 := Fixed(0, 0)])
  {
    hide Occurs, Frontier;
    var s0 := SetupWritten();
    var s1 := Next(s0, OfOpener(SCheckOpen));
    var s2 := Next(s1, OfOpener(SWriteOpen));
    assert s2.a.opens == Opened(OpenSent(0, 0), Unchecked);
    var s3 := ServedOpen(s2);
    t := ReadAnswer(Swap(s3));
  }

  lemma ReadAnswer(s: System) returns (t: System)
    requires Occurs(s) && Live(s) && s.a == NewEndpoint(Client).(opens := Opened(OpenSent(0, 0), Unchecked))
    requires s.carriers == map[1 := Carrier(None, false, Some(0))]
    ensures Occurs(t) && Occurs(Swap(t)) && t == s.(a := s.a.(opens := t.a.opens), carriers := t.carriers)
    ensures t.a.opens.opening == Some(Opening(1, Resolved(0, 0), Cleared(None)))
  {
    hide Occurs, Frontier;
    var s1 := Next(s, OfOpener(SCheckOpen));
    assert s1.a.opens == Opened(OpenSent(0, 0), Cleared(None));
    assert CarrierOf(s1.carriers, 1).openAck == Some(0);
    var s2 := Next(s1, OfOpener(SReadOpenAck));
    assert s2.a.opens.opening == Some(Opening(1, Resolved(0, 0), Unchecked));
    t := Next(s2, OfOpener(SCheckOpen));
  }

  lemma ServedOpen(s: System) returns (t: System)
    requires Occurs(Swap(s)) && Live(s) && s.b == NewEndpoint(Server)
    requires s.carriers == map[1 := Carrier(Some(0), true, None)]
    ensures Occurs(t) && Occurs(Swap(t))
    ensures t == Swap(s).(
                   a := NewEndpoint(Server).(accepts := Accepts(Ledger(Client, map[1 := OpenSeen]), 0,
                                                                map[1 := AckSent(0, 0)], map[1 := Fixed(0, 0)])),
                   carriers := map[1 := Carrier(None, false, Some(0))])
  {
    hide Occurs, Frontier;
    var s1 := Next(Swap(s), OfAcceptor(SEnterResponder));
    var s2 := Next(s1, OfAcceptor(SReadSetup(1)));
    assert s2.a.accepts == Accepts(EmptyLedger(Client), 0, map[1 := Checked(0, None)], map[]);
    var s3 := Next(s2, OfAcceptor(SMarkSetup(1)));
    assert s3.a.accepts == Accepts(Ledger(Client, map[1 := OpenSeen]), 0, map[1 := SetupSeen(0)], map[]);
    assert s3.carriers == map[1 := Carrier(None, true, None)];
    t := Next(s3, OfAcceptor(SWriteOpenAck(1)));
    assert t.a.accepts.serving == map[1 := AckSent(0, 0)] && t.a.accepts.fixed == map[1 := Fixed(0, 0)];
    assert t.carriers == map[1 := Carrier(None, false, Some(0))];
  }

  lemma UnsettledOne(l: Ledger)
    requires l == Ledger(Client, map[1 := OpenSeen])
    ensures Frontier(l) == 0
  {
  }

  /** The client registers a stream past the boundary that it has already been told. */
  lemma StreamOpenedPastGoAway()
    ensures exists s, id :: Occurs(s) && Live(s) && !s.a.goaways.closing && !s.b.goaways.closing
                            && !OpenAllowed(s.a.goaways.received, id)
                            && RegisterOpened(s).Some? && Registers(s, RegisterOpened(s).value, id)
  {
    hide Occurs, Frontier;
    var s0 := AnsweredOpen();
    UnsettledOne(s0.b.accepts.ledger);
    var s1 := Exhaust(Swap(s0), MAX_LEDGER_SLOTS);
    var s2 := ExhaustedOpen(s1, 0);
    assert s2.ab == [Record(0, MAX_LEDGER_SLOTS, GoAway(0))];
    var s3 := Next(Swap(s2), OfControl(SReadControl));
    assert !OpenAllowed(s3.a.goaways.received, 1) && Registers(s3, RegisterOpened(s3).value, 1);
  }

  // ----- Rekeys that cross ----------------------------------------------------------

  /** `a` and `b` each announce a first update; `b` has already acknowledged `a`'s, and `a`
      has moved to its new epoch. */
  lemma CrossedSwitch() returns (t: System)
    ensures Occurs(t) && Live(t) && t.ba == [Record(0, 1, KeyUpdate(FIRST))]
    ensures t.a == Announcer(Client).(
                     keys := Announcer(Client).keys.(sendEpoch := 1), labels := Labels(0, 0, 1),
                     rekeys := Rekeys(Switched(Announcer(Client).rekeys.local.plan), 2, map[], Some(FIRST),
                                      Listening, 0))
  {
    hide Occurs, Frontier;
    EmptyFrontiers();
    var s1 := FirstAnnouncement();
    var s2 := AdoptRun(Swap(s1), FIRST);
    var s3 := PrepareRun(s2);
    var s4 := AnnounceRun(s3);
    assert s4.ab == [Record(0, 0, KeyAck(FIRST)), Record(0, 1, KeyUpdate(FIRST))];
    t := SwitchRun(Swap(s4));
  }

  /** The local rekey's last step prunes the roots of the epoch that is about to be adopted. */
  lemma CrossedRekeyLosesReceiveRoots()
    ensures exists s :: Occurs(s) && Live(s) && s.a.keys.recvEpoch !in s.a.keys.recvRoots
  {
    hide Occurs, Frontier;
    EmptyFrontiers();
    var s1 := CrossedSwitch();
    var s2 := CheckRun(s1, FIRST);
    var s3 := Next(s2, OfRekey(SFinishRekey));
    assert s3.a.keys.recvRoots.Keys == {0};
    assert ClearUpdates(s3.a.streams, FIRST, {}) == s3.a.streams;
    var s4 := Next(s3, OfControl(SAdoptUpdate));
    assert s4.a.keys.recvEpoch !in s4.a.keys.recvRoots;
  }

  // ----- Rekeys that overlap --------------------------------------------------------

  const FIRST_ROOTS: Roots := NextEpoch(EpochZero(ClientToServer), ClientToServer, 1)

  /** The client's first rekey has ended, but its freeze guard is still alive. */
  lemma RekeyedOnce() returns (t: System)
    ensures Occurs(t) && Live(t) && t.ab == [] && t.ba == [] && t.carriers == map[]
    ensures t.a == NewEndpoint(Client).(
                     keys := Keys(1, 0, map[1 := FIRST_ROOTS], map[0 := EpochZero(ServerToClient)]),
                     labels := Labels(0, 0, 1), rekeys := Rekeys(Idle, 2, map[], Some(FIRST), Listening, 0),
                     guards := Guards(true, true, 1, 0, false))
    ensures t.b == NewEndpoint(Server).(
                     keys := Keys(0, 1, map[0 := EpochZero(ServerToClient)], map[1 := FIRST_ROOTS]),
                     labels := Labels(1, 0, 1), rekeys := Rekeys(Idle, 1, map[], None, Listening, 1))
  {
    hide Occurs, Frontier;
    EmptyFrontiers();
    var s1 := FirstAnnouncement();
    var s2 := AdoptRun(Swap(s1), FIRST);
    assert s2.ab == [Record(0, 0, KeyAck(FIRST))] && s2.a.keys.recvRoots == map[1 := FIRST_ROOTS];
    var s3 := SwitchRun(Swap(s2));
    t := FinishRun(s3);
    assert t.a.keys.sendRoots == map[1 := FIRST_ROOTS];
    assert t.a.keys.recvRoots == map[0 := EpochZero(ServerToClient)];
  }

  lemma FinishRun(s: System) returns (t: System)
    requires Occurs(s) && Live(s) && s.a.rekeys.local.Switched? && s.a.rekeys.local.plan.streams == {}
    ensures Occurs(t)
    ensures t == s.(a := s.a.(
                      keys := s.a.keys.(sendRoots := Retain(s.a.keys.sendRoots, s.a.keys.sendEpoch),
                                        recvRoots := Retain(s.a.keys.recvRoots, s.a.keys.recvEpoch)),
                      rekeys := s.a.rekeys.(local := Idle),
                      guards := s.a.guards.(freezes := s.a.guards.freezes + 1)))
  {
    hide Occurs;
    t := Next(s, OfRekey(SFinishRekey));
  }

  /** The second rekey has taken its snapshot when the first one's guard lifts the freeze. */
  lemma FreezeLifted() returns (t: System)
    ensures Occurs(t) && Occurs(Swap(t)) && Live(t) && t.ab == [] && t.ba == [] && t.carriers == map[]
    ensures t.a == NewEndpoint(Client).(
                     keys := Keys(1, 0, map[1 := FIRST_ROOTS], map[0 := EpochZero(ServerToClient)]),
                     labels := Labels(0, 0, 1),
                     rekeys := Rekeys(Prepared(Plan(Update(2, 2, 0), NextEpoch(FIRST_ROOTS, ClientToServer, 2), {})),
                                      2, map[], Some(FIRST), Listening, 0),
                     guards := Guards(false, true, 0, 1, true))
    ensures t.b == NewEndpoint(Server).(
                     keys := Keys(0, 1, map[0 := EpochZero(ServerToClient)], map[1 := FIRST_ROOTS]),
                     labels := Labels(1, 0, 1), rekeys := Rekeys(Idle, 1, map[], None, Listening, 1))
  {
    hide Occurs, Frontier;
    EmptyFrontiers();
    var s1 := RekeyedOnce();
    var s2 := PrepareRun(s1);
    t := Next(s2, OfRekey(SDropFreeze));
  }

  /** The server writes the preface and OPEN of stream 2. */
  lemma ServerOpens(s: System) returns (t: System)
    requires Occurs(s) && Live(s) && MayOpen(s.a) && s.a.role == Server && s.a.opens == NewEndpoint(Server).opens
    requires s.a.keys.sendEpoch in s.a.keys.sendRoots && s.carriers == map[]
    ensures Occurs(Swap(t)) && t == s.(a := s.a.(opens := t.a.opens), carriers := t.carriers)
    ensures t.carriers == map[2 := Carrier(Some(s.a.keys.sendEpoch), true, None)]
  {
    hide Occurs, Frontier;
    var s1 := Next(s, OfOpener(SBeginOpen));
    var s2 := Next(s1, OfOpener(SCheckOpen));
    var s3 := Next(s2, OfOpener(STakeEpochs));
    var s4 := Next(s3, OfOpener(SWriteSetup));
    var s5 := Next(s4, OfOpener(SCheckOpen));
    t := Next(s5, OfOpener(SWriteOpen));
  }

  /** The client accepts it, although its rekey has already taken its snapshot. */
  lemma ClientAccepts(s: System) returns (t: System)
    requires Occurs(s) && Live(s) && !Frozen(s) && s.a.role == Client && s.a.goaways.sent.None? && s.a.streams == map[]
    requires s.a.accepts == NewEndpoint(Client).accepts
    requires s.carriers == map[2 := Carrier(Some(s.a.keys.recvEpoch), true, None)]
    requires s.a.keys.recvEpoch in s.a.keys.recvRoots
    ensures Occurs(t) && t == s.(a := s.a.(accepts := t.a.accepts, streams := t.a.streams), carriers := t.carriers)
    ensures t.a.streams == map[2 := NewStream(s.a.keys.sendEpoch, s.a.keys.recvEpoch)]
  {
    hide Occurs, Frontier;
    var s1 := Next(s, OfAcceptor(SEnterResponder));
    var s2 := Next(s1, OfAcceptor(SReadSetup(2)));
    var s3 := Next(s2, OfAcceptor(SMarkSetup(2)));
    var s4 := Next(s3, OfAcceptor(SWriteOpenAck(2)));
    t := Next(s4, OfAcceptor(SRegisterAccepted(2)));
  }

  lemma SecondAnnouncement() returns (t: System)
    ensures Occurs(t) && Occurs(Swap(t)) && Live(t) && t.ba == []
    ensures t.ab == [Record(1, 0, KeyUpdate(Update(2, 2, 0)))]
    ensures t.a.rekeys.local.AwaitingAck? && t.a.rekeys.local.plan.update == Update(2, 2, 0)
    ensures t.a.rekeys.local.plan.streams == {} && t.a.rekeys.peer.Listening?
    ensures t.a.rekeys.pending == map[2 := Update(2, 2, 0)]
    ensures t.a.streams == map[2 := NewStream(1, 0)] && t.a.keys.recvRoots.Keys == {0} && t.a.labels.recvEpoch == 0
    ensures t.a.labels.recvSequence == 1
    ensures t.b == NewEndpoint(Server).(
                     keys := Keys(0, 1, map[0 := EpochZero(ServerToClient)], map[1 := FIRST_ROOTS]), opens := t.b.opens,
                     labels := Labels(1, 0, 1), rekeys := Rekeys(Idle, 1, map[], None, Listening, 1))
  {
    hide Occurs, Frontier;
    var s1 := FreezeLifted();
    var s2 := ServerOpens(Swap(s1));
    var s3 := ClientAccepts(Swap(s2));
    t := AnnounceRun(s3);
  }

  /** A rekey that began while an older guard was alive leaves an active stream at an epoch
      whose roots are gone. */
  lemma OverlappedRekeyLeavesStreamBehind()
    ensures exists s, id :: Occurs(s) && Live(s) && s.a.rekeys.local.Idle?
                            && id in s.a.streams && Active(s.a.streams[id])
                            && s.a.streams[id].sendEpoch !in s.a.keys.sendRoots
  {
    hide Occurs, Frontier;
    var s3 := SecondSwitch();
    var s4 := Next(s3, OfRekey(SFinishRekey));
    assert s4.a.streams[2].sendEpoch !in s4.a.keys.sendRoots;
  }

  lemma SecondSwitch() returns (t: System)
    ensures Occurs(t) && Live(t) && t.a.keys.sendEpoch == 2 && t.a.streams == map[2 := NewStream(1, 0)]
    ensures t.a.rekeys.local.Switched? && t.a.rekeys.local.plan.streams == {}
  {
    hide Occurs, Frontier;
    EmptyFrontiers();
    var s1 := SecondAnnouncement();
    var s2 := AdoptRun(Swap(s1), Update(2, 2, 0));
    assert s2.ab == [Record(0, 1, KeyAck(Update(2, 2, 0)))];
    t := SwitchRun(Swap(s2));
  }
}
