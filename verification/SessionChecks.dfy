/** The checks of the control loop and of the acceptor against any peer. The state need
    not be one that two honest endpoints reach, so these lemmas say what is refused and
    not only what never is. */
module SessionChecks {
  import opened Basics
  import opened Ledgers
  import opened Session

  /** Both ledgers list the IDs that their opener may use. */
  predicate OwnLedgers(e: Endpoint) {
    e.opens.outbound.opener == e.role && e.accepts.ledger.opener == Other(e.role)
  }

  /** A key update is checked once no responder is left, and passes exactly when its
      transition and its epoch are the next ones, the roots to derive from are held, and
      the peer's IDs up to its watermark, and not the next one, are resolved. */
  lemma UpdatePassesExactly(s: System)
    requires s.a.failure.None? && s.a.rekeys.peer.PeerDraining?
    ensures CheckUpdate(s).Some? <==> s.a.accepts.idle == 0 && s.a.accepts.serving == map[]
    ensures CheckUpdate(s).Some? ==>
              var u, t := s.a.rekeys.peer.update, CheckUpdate(s).value;
              && (t.a.failure.None? <==>
                  && u.transition == s.a.rekeys.recvTransition + 1 && u.nextEpoch == s.a.keys.recvEpoch + 1
                  && s.a.keys.recvEpoch in s.a.keys.recvRoots && IsFrontier(s.a.accepts.ledger, u.watermark))
              && (t.a.failure.None? ==> t.a.rekeys.peer.AwaitingStreams? && t.a.rekeys.peer.update == u)
              && t.a.keys.recvEpoch == s.a.keys.recvEpoch && t.a.rekeys.recvTransition == s.a.rekeys.recvTransition
  {
    hide IsFrontier, Frontier;
    FrontierIsMaximal(s.a.accepts.ledger, s.a.rekeys.peer.update.watermark);
  }

  /** A control record passes exactly with the next sequence of the reader's epoch, or as
      the first of the next epoch once the session has adopted it; its roots must be held. */
  lemma ControlPassesExactly(s: System)
    requires s.a.failure.None? && s.ba != []
    ensures var r, l, t := s.ba[0], s.a.labels, Accept(s);
            && (t.a.failure.None? <==>
                && (|| (r.epoch == l.recvEpoch && r.sequence == l.recvSequence)
                    || (r.epoch == l.recvEpoch + 1 == s.a.keys.recvEpoch && r.sequence == 0))
                && r.epoch in s.a.keys.recvRoots)
            && (t.a.failure.None? ==>
                  t.a.labels.recvEpoch == r.epoch && t.a.labels.recvSequence == r.sequence + 1)
            && t.ba == s.ba[1..]
  {}

  /** An acknowledgement passes exactly when it repeats a pending update word for word, or
      the last one acknowledged when nothing is pending for its transition. */
  lemma AckPassesExactly(s: System, u: Update)
    requires s.a.failure.None?
    ensures var r, t := s.a.rekeys, ReceiveAck(s, u);
            && (t.a.failure.None? <==>
                || (u.transition in r.pending && r.pending[u.transition] == u)
                || (u.transition !in r.pending && r.lastAck == Some(u)))
            && (t.a.failure.None? ==> t.a.rekeys.lastAck == Some(u) && u.transition !in t.a.rekeys.pending)
            && (t.a.rekeys.local != r.local ==>
                  r.local.AwaitingAck? && t.a.rekeys.local == Acked(r.local.plan) && u.transition in r.pending)
  {}

  /** A boundary passes exactly when it is zero or an ID that this endpoint has opened, and
      repeats the earlier boundary if there is one. */
  lemma BoundaryPassesExactly(s: System, last: nat)
    requires s.a.failure.None?
    ensures var t := ReceiveGoAway(s, last);
            && (t.a.failure.None? <==>
                && (last == 0 || (last <= s.a.opens.highWatermark && (last % 2 == 1 <==> s.a.role.Client?)))
                && (s.a.goaways.received == None || s.a.goaways.received == Some(last)))
            && (t.a.failure.None? ==> t.a.goaways.received == Some(last))
  {}

  // The IDs of both openers together.
  lemma KnownIds(role: Role, id: nat)
    ensures Known(role, id) || Known(Other(role), id) <==> 1 <= id <= 2_097_152
  {}

  lemma ResetSettles(l: Ledger, id: nat)
    ensures MarkPeerReset(l, id).Marked? <==> Known(l.opener, id)
    ensures MarkPeerReset(l, id).Marked? ==> Settled(MarkPeerReset(l, id).ledger, id)
  {
    hide Known;
  }

  /** A reset passes exactly when its ID is one of the 2097152 that a ledger has slots for,
      whoever opens it. It settles the ID, and marks the stream if there is one. */
  lemma ResetPassesExactly(s: System, id: nat)
    requires s.a.failure.None? && OwnLedgers(s.a)
    ensures var t := ReceiveReset(s, id);
            && (t.a.failure.None? <==> 1 <= id <= 2_097_152)
            && t.a.streams == (if id in s.a.streams then s.a.streams[id := s.a.streams[id].(reset := true)]
                               else s.a.streams)
            && (t.a.failure.None? ==> Settled(t.a.opens.outbound, id) || Settled(t.a.accepts.ledger, id))
  {
    KnownIds(s.a.role, id);
    ResetSettles(s.a.opens.outbound, id);
    ResetSettles(s.a.accepts.ledger, id);
    hide Known, Settled, MarkPeerReset;
  }

  /** A preface fails the session exactly when its epoch is not the receive epoch. It is
      served exactly when, besides, the roots are held and no boundary that was sent lies
      before its ID. */
  lemma SetupPassesExactly(s: System, id: nat, t: System)
    requires s.a.failure.None? && ReadSetup(s, id) == Some(t)
    ensures CarrierOf(s.carriers, id).setup.Some? && CarrierOf(t.carriers, id).setup.None?
    ensures var epoch, k, sent := CarrierOf(s.carriers, id).setup.value, s.a.keys, s.a.goaways.sent;
            && (t.a.failure.Some? <==> epoch != k.recvEpoch)
            && (t.a.failure.None? ==> t.a.accepts.idle == s.a.accepts.idle - 1)
            && (t.a.accepts.serving != s.a.accepts.serving ==>
                  t.a.accepts.serving == s.a.accepts.serving[id := Checked(epoch, sent)])
            && (id !in s.a.accepts.serving ==>
                  (id in t.a.accepts.serving <==>
                   epoch == k.recvEpoch && epoch in k.recvRoots && (sent == None || 1 <= id <= sent.value)))
  {}

  /** Before each operation an open goes on exactly when no boundary that has arrived
      forbids its ID. */
  lemma OpenPassesExactly(s: System)
    ensures CheckOpen(s).Some? <==>
            && s.a.opens.opening.Some?
            && var received, id := s.a.goaways.received, s.a.opens.opening.value.id;
               received == None || (received.value >= 1 && received.value >= id)
  {}

  /** A record is labelled with the send epoch and the next sequence, up to the last one. */
  lemma PostLabels(s: System, body: Body)
    requires s.a.failure.None?
    ensures var k, n, t := s.a.keys, s.a.labels.sendSequence, Post(s, body);
            && (t.a.failure.None? <==> k.sendEpoch in k.sendRoots && n < 18_446_744_073_709_551_615)
            && (t.a.failure.None? ==>
                  && t.ab == s.ab + [Record(k.sendEpoch, n, body)]
                  && t == s.(ab := t.ab, a := s.a.(labels := s.a.labels.(sendSequence := n + 1))))
            && (t.a.failure.Some? ==> t == s.(a := s.a.(failure := t.a.failure)))
  {}

  /** An open begins exactly when no other open, rekey or GOAWAY stands in its way, and it
      takes the next ID for good, even if the ledger has no slot for it. */
  lemma OpenBeginsExactly(s: System)
    ensures BeginOpen(s).Some? <==>
            && s.a.opens.opening == None && s.a.rekeys.local == Idle && !s.a.guards.rekeying
            && s.a.goaways.received == None && !s.a.goaways.closing && s.a.goaways.exhausted == Quiet
    ensures BeginOpen(s).Some? ==> BeginOpen(s).value.a.opens.nextId == s.a.opens.nextId + 2
  {}

  /** A rekey begins exactly when no open, rekey or closing stands in its way. */
  lemma RekeyBeginsExactly(s: System)
    ensures BeginRekey(s).Some? <==>
            && s.a.rekeys.local == Idle && s.a.opens.opening == None
            && s.a.goaways.exhausted == Quiet && !s.a.goaways.closing
    ensures BeginRekey(s).Some? ==>
              var t := BeginRekey(s).value;
              t.a.rekeys.local == Draining && t.a.guards.frozen && t.a.guards.rekeying
  {}

  /** Its responders drained, a rekey takes the IDs opened so far as its watermark. It goes
      on to a plan exactly when all of them, and no others, are resolved, the last epoch has
      not been reached and the roots are held; it waits while some are not resolved. */
  lemma RekeyPreparesExactly(s: System, watermark: nat)
    requires s.a.failure.None? && s.a.rekeys.local == WaitingFrontier(watermark)
    ensures var l, k := s.a.opens.outbound, s.a.keys;
            && (Prepare(s).None? <==> Frontier(l) < watermark || k.sendEpoch >= 4_294_967_295)
            && (Prepare(s).Some? ==>
                  var t := Prepare(s).value;
                  && (t.a.failure.None? <==> IsFrontier(l, watermark) && k.sendEpoch in k.sendRoots)
                  && (t.a.failure.None? ==>
                        && t.a.rekeys.local.Prepared?
                        && t.a.rekeys.local.plan.update
                           == Update(s.a.rekeys.nextTransition, k.sendEpoch + 1, watermark)))
  {
    hide IsFrontier, Frontier;
    FrontierIsMaximal(s.a.opens.outbound, watermark);
  }

  /** A checked update is adopted exactly when each stream of its snapshot has taken the
      stream update that belongs to it, or FIN. */
  lemma UpdateAdoptsExactly(s: System, u: Update, ids: set<nat>)
    requires s.a.rekeys.peer == AwaitingStreams(u, ids)
    ensures AdoptUpdate(s).Some? <==>
            forall id :: id in ids ==>
              && id in s.a.streams
              && (s.a.streams[id].remoteFin || s.a.streams[id].recvUpdate == Some((u.transition, u.nextEpoch)))
    ensures AdoptUpdate(s).Some? ==>
              var t := AdoptUpdate(s).value;
              && t.a.keys.recvEpoch == u.nextEpoch && t.a.rekeys.recvTransition == u.transition
              && t.a.rekeys.peer == Adopted(u) && t.a.streams.Keys == s.a.streams.Keys
  {}

  /** A rekey ends exactly when each stream of its plan has the acknowledgement of its own
      update. What is left are the roots of the current epochs, and a freeze guard to drop. */
  lemma RekeyEndsExactly(s: System, p: Plan)
    requires s.a.rekeys.local == Switched(p)
    ensures FinishRekey(s).Some? <==>
            forall id :: id in p.streams ==>
              id in s.a.streams && s.a.streams[id].sendUpdateAck == Some((p.update.transition, p.update.nextEpoch))
    ensures FinishRekey(s).Some? ==>
              var k, l := s.a.keys, FinishRekey(s).value.a.keys;
              && (forall e :: e in l.sendRoots <==> e == k.sendEpoch && e in k.sendRoots)
              && (forall e :: e in l.recvRoots <==> e == k.recvEpoch && e in k.recvRoots)
              && FinishRekey(s).value.a.guards.freezes == s.a.guards.freezes + 1
  {}

  /** Closing begins once, and owes the peer a GOAWAY. */
  lemma ClosingBeginsOnce(s: System)
    ensures BeginClosing(s).Some? <==> !s.a.goaways.closing
    ensures BeginClosing(s).Some? ==>
              var t := BeginClosing(s).value;
              && t.a.goaways.closing && t.a.goaways.closer == Due && BeginClosing(t).None?
              && t.a.goaways.sent == s.a.goaways.sent && t.a.goaways.received == s.a.goaways.received
  {}

  /** A preparation is given up exactly before its plan; both flags go down. */
  lemma PreparingCancelsExactly(s: System)
    ensures CancelPrepare(s).Some? <==> s.a.rekeys.local == Draining || s.a.rekeys.local.WaitingFrontier?
    ensures CancelPrepare(s).Some? ==>
              var t := CancelPrepare(s).value;
              t.a.rekeys.local == Idle && !t.a.guards.frozen && !t.a.guards.rekeying
  {}

  /** An ended rekey drops its freeze guard and then its activity guard, each once. */
  lemma GuardsDropOnce(s: System)
    ensures DropFreeze(s).Some? <==> s.a.guards.freezes > 0
    ensures DropActivity(s).Some? <==> s.a.guards.activities > 0
    ensures DropFreeze(s).Some? ==>
              var g, h := s.a.guards, DropFreeze(s).value.a.guards;
              !h.frozen && h.rekeying == g.rekeying && h.freezes + 1 == g.freezes && h.activities == g.activities + 1
    ensures DropActivity(s).Some? ==>
              var g, h := s.a.guards, DropActivity(s).value.a.guards;
              !h.rekeying && h.frozen == g.frozen && h.activities + 1 == g.activities && h.freezes == g.freezes
  {}

  /** A responder enters exactly while neither key update has closed the gate. It is counted
      in, and counted out if it gives up. */
  lemma RespondersCounted(s: System)
    ensures EnterResponder(s).Some? <==> !s.a.guards.frozen && s.a.rekeys.peer == Listening
    ensures GiveUpResponder(s).Some? <==> s.a.accepts.idle > 0
    ensures EnterResponder(s).Some? ==>
              && EnterResponder(s).value.a.accepts.idle == s.a.accepts.idle + 1
              && GiveUpResponder(EnterResponder(s).value) == Some(s)
  {}

  /** Reading OPEN_ACK resolves the ID: it is sealed at the receive epoch that the open took,
      whose roots must be held. */
  lemma OpenAckResolves(s: System, t: System)
    requires s.a.failure.None? && ReadOpenAck(s) == Some(t) && t.a.failure.None?
    ensures s.a.opens.opening.Some? && s.a.opens.opening.value.stage.OpenSent?
    ensures var id, r := s.a.opens.opening.value.id, s.a.opens.opening.value.stage.receiveEpoch;
            && CarrierOf(s.carriers, id).openAck == Some(r) && r in s.a.keys.recvRoots
            && StateOf(t.a.opens.outbound, id) == UsedOrTerminal && CarrierOf(t.carriers, id).openAck.None?
  {}

  /** The last handle of a stream is dropped exactly when the application has it and no rekey
      holds the stream. */
  lemma HandleDropsExactly(s: System, id: nat)
    ensures DropHandle(s, id).Some? <==>
            && id in s.a.streams && (id in s.a.accepts.serving ==> s.a.accepts.serving[id] == HandedOver)
            && (s.a.rekeys.peer.AwaitingStreams? ==> id !in s.a.rekeys.peer.streams)
            && (|| s.a.rekeys.local.Idle? || s.a.rekeys.local.Draining? || s.a.rekeys.local.WaitingFrontier?
                || id !in s.a.rekeys.local.plan.streams)
    ensures DropHandle(s, id).Some? ==> DropHandle(s, id).value.a.streams == s.a.streams - {id}
  {}

  /** A stream takes an update exactly when it has adopted the last one, its epoch is not the
      last, and the roots of the next epoch are held or can be derived. */
  lemma StreamUpdatePassesExactly(s: System, id: nat, transition: nat)
    requires id in s.a.streams
    ensures var st, k := s.a.streams[id], s.a.keys;
            && (ReadStreamUpdate(s, id, transition).Some? <==>
                && transition >= 1 && st.recvUpdate.None? && st.recvEpoch < 4_294_967_295
                && (st.recvEpoch + 1 in k.recvRoots || st.recvEpoch in k.recvRoots))
            && (ReadStreamUpdate(s, id, transition).Some? ==>
                  var t := ReadStreamUpdate(s, id, transition).value;
                  && t.a.streams == s.a.streams[id := st.(recvEpoch := st.recvEpoch + 1,
                                                          recvUpdate := Some((transition, st.recvEpoch + 1)))]
                  && t.a.keys.recvRoots.Keys == k.recvRoots.Keys + {st.recvEpoch + 1})
  {}
}
