/** The two ends of one logical stream, joined by an in-order carrier. Either end may
    announce a key update at any time, so updates of the two directions may cross. */
module StreamPairs {
  import opened Basics
  import opened Labels
  import opened StreamRecords

  datatype Pair = Pair(a: End, b: End, ab: seq<Record>, ba: seq<Record>)

  function Swap(p: Pair): Pair {
    Pair(p.b, p.a, p.ba, p.ab)
  }

  predicate Live(p: Pair) {
    !p.a.broken && !p.b.broken
  }

  function NewEnd(id: nat, sendEpoch: nat, recvEpoch: nat): End {
    End(id, Label(sendEpoch, 1), Position(Label(recvEpoch, 1), None), None, None, None, false, None, false)
  }

  /** The stream as its setup leaves it. */
  function NewPair(id: nat, forth: nat, back: nat): Pair {
    Pair(NewEnd(id, forth, back), NewEnd(id, back, forth), [], [])
  }

  /** Both ends of a new stream. */
  method OpenBoth(id: nat, forth: nat, back: nat) returns (a: EncryptedStream, b: EncryptedStream)
    ensures fresh(a) && fresh(b) && a != b && a.Valid() && b.Valid()
    ensures Pair(a.View(), b.View(), [], []) == NewPair(id, forth, back)
  {
    a := new EncryptedStream(id, forth, back);
    b := new EncryptedStream(id, back, forth);
  }

  // ----- The steps of end `a` -------------------------------------------------------

  function Put(p: Pair, body: Body): Option<Pair> {
    if p.a.next.sequence >= U64_MAX then None
    else Some(p.(a := p.a.(next := Label(p.a.next.epoch, p.a.next.sequence + 1)),
                 ab := p.ab + [Record(p.a.next, body)]))
  }

  function Announce(p: Pair, switch: Switch): Option<Pair> {
    if p.a.sendUpdate.Some? then None
    else Put(p.(a := p.a.(sendUpdate := Some(switch), sendUpdateAck := None)), KeyUpdate(Some(switch)))
  }

  function Acknowledge(p: Pair): Option<Pair> {
    if p.a.owed.None? then None
    else Put(p.(a := p.a.(owed := None)), KeyUpdateAck(p.a.id, p.a.owed))
  }

  /** The session has adopted the update; the next one may come. */
  function Adopt(p: Pair): Option<Pair> {
    Some(p.(a := p.a.(recvUpdate := None)))
  }

  /** A reader takes the next record; `derivable` says whether the session can derive the
      next roots. */
  function Receive(p: Pair, reader: Reader, derivable: bool): Option<Pair> {
    if p.ba == [] || p.a.owed.Some? then None
    else Some(p.(a := TakeRecord(p.a, p.ba[0], reader, derivable), ba := p.ba[1..]))
  }

  datatype Step =
    | Write(body: Body) | SendUpdate(switch: Switch) | SendAck | AdoptUpdate | ReadNext(reader: Reader, derivable: bool)

  function Do(p: Pair, step: Step): Option<Pair> {
    match step
    case Write(body) => if body.Data? || body.Fin? then Put(p, body) else None
    case SendUpdate(switch) => Announce(p, switch)
    case SendAck => Acknowledge(p)
    case AdoptUpdate => Adopt(p)
    case ReadNext(reader, derivable) => Receive(p, reader, derivable)
  }

  datatype Move = ByA(step: Step) | ByB(step: Step)

  function Play(p: Pair, move: Move): Option<Pair> {
    if !Live(p) then None
    else match move
      case ByA(step) => Do(p, step)
      case ByB(step) =>
        match Do(Swap(p), step)
        case None => None
        case Some(q) => Some(Swap(q))
  }

  function PlayAll(p: Pair, moves: seq<Move>): Option<Pair>
    decreases |moves|
  {
    if moves == [] then Some(p)
    else match Play(p, moves[0])
      case None => None
      case Some(q) => PlayAll(q, moves[1..])
  }

  // ----- Where an update is ---------------------------------------------------------

  function UpdateIn(body: Body): seq<Switch> {
    if body.KeyUpdate? && body.update.Some? then [body.update.value] else []
  }

  function AckIn(body: Body): seq<Switch> {
    if body.KeyUpdateAck? && body.acked.Some? then [body.acked.value] else []
  }

  function Updates(q: seq<Record>): seq<Switch> {
    if q == [] then [] else UpdateIn(q[0].body) + Updates(q[1..])
  }

  function Acks(q: seq<Record>): seq<Switch> {
    if q == [] then [] else AckIn(q[0].body) + Acks(q[1..])
  }

  lemma {:induction false} Appended(q: seq<Record>, r: Record)
    ensures Updates(q + [r]) == Updates(q) + UpdateIn(r.body)
    ensures Acks(q + [r]) == Acks(q) + AckIn(r.body)
    decreases |q|
  {
    if q == [] {
      assert q + [r] == [r] && [r][1..] == [];
    } else {
      Appended(q[1..], r);
      assert (q + [r])[0] == q[0] && (q + [r])[1..] == q[1..] + [r];
    }
  }

  function AsSeq(x: Option<Switch>): seq<Switch> {
    if x.Some? then [x.value] else []
  }

  /** Every record in flight is one that an end of this stream writes. */
  ghost predicate WellFormed(q: seq<Record>, id: nat) {
    forall r <- q ::
      && !r.body.Unexpected?
      && (r.body.KeyUpdate? ==> r.body.update.Some?)
      && (r.body.KeyUpdateAck? ==> r.body.streamId == id && r.body.acked.Some?)
  }

  /** In the direction from `a` to `b`: the pending update is in exactly one place, and the
      receiver is one epoch ahead just while the update has reached it but not come back. */
  ghost predicate Lockstep(p: Pair) {
    && p.a.id == p.b.id && WellFormed(p.ab, p.a.id)
    && Updates(p.ab) + AsSeq(p.b.owed) + Acks(p.ba) == AsSeq(p.a.sendUpdate)
    && (forall u <- AsSeq(p.b.owed) + Acks(p.ba) :: u.nextEpoch == p.b.place.next.epoch)
    && p.b.place.next.epoch == p.a.next.epoch + |AsSeq(p.b.owed) + Acks(p.ba)|
  }

  /** Where a reader that skips what was sent behind an update comes to by the end of a queue:
      every record is at the label it expects, or in an epoch that it has left. */
  function Reach(q: seq<Record>, next: Label): Option<Label>
    decreases |q|
  {
    if q == [] then Some(next)
    else if q[0].stamp.epoch < next.epoch then Reach(q[1..], next)
    else if q[0].stamp != next then None
    else Reach(q[1..], Passed(next, q[0].body))
  }

  function Passed(next: Label, body: Body): Label {
    if body.KeyUpdate? then Label(next.epoch + 1, 0) else Label(next.epoch, next.sequence + 1)
  }

  /** The label that a writer's peer will expect in the end. */
  function Ahead(e: End): Label {
    if e.sendUpdate.Some? then Label(e.next.epoch + 1, 0) else e.next
  }

  /** In the direction from `a` to `b`, the labels in flight lead from reader to writer. */
  ghost predicate InStep(p: Pair) {
    && Reach(p.ab, p.b.place.next) == Some(Ahead(p.a))
    && (p.b.place.prior.Some? ==> p.b.place.prior.value.epoch < p.b.place.next.epoch)
    && forall r <- p.ab :: r.stamp.sequence < U64_MAX
  }

  ghost predicate Invariant(p: Pair) {
    Live(p) ==> Lockstep(p) && Lockstep(Swap(p)) && InStep(p) && InStep(Swap(p))
  }

  // ----- Every step keeps it --------------------------------------------------------

  lemma PutKeeps(p: Pair, r: Pair, body: Body, q: Pair)
    requires Lockstep(p) && Lockstep(Swap(p)) && Put(r, body) == Some(q)
    requires r == p.(a := p.a.(sendUpdate := r.a.sendUpdate, sendUpdateAck := r.a.sendUpdateAck, owed := r.a.owed))
    requires AsSeq(r.a.sendUpdate) == AsSeq(p.a.sendUpdate) + UpdateIn(body)
    requires AsSeq(p.a.owed) == AsSeq(r.a.owed) + AckIn(body)
    requires WellFormed([Record(p.a.next, body)], p.a.id)
    ensures Lockstep(q) && Lockstep(Swap(q))
  {
    hide Updates, Acks, UpdateIn, AckIn;
    Appended(p.ab, Record(p.a.next, body));
    AtMostOne(Swap(p));
  }

  /** Between the channel, the receiver and the way back there is one update at most. */
  lemma AtMostOne(p: Pair)
    requires Lockstep(p)
    ensures |Updates(p.ab)| + |AsSeq(p.b.owed)| + |Acks(p.ba)| <= 1
  {
    hide Updates, Acks;
  }

  // A record without an update or an acknowledgement has gone, and only labels have moved.
  lemma PlainKeeps(p: Pair, q: Pair)
    requires Lockstep(p) && Lockstep(Swap(p)) && p.ba != []
    requires UpdateIn(p.ba[0].body) == [] && AckIn(p.ba[0].body) == []
    requires q == p.(a := p.a.(place := q.a.place, remoteFin := q.a.remoteFin), ba := p.ba[1..])
    requires q.a.place.next.epoch == p.a.place.next.epoch
    ensures Lockstep(q) && Lockstep(Swap(q))
  {
    assert Updates(p.ba) == Updates(q.ba) && Acks(p.ba) == Acks(q.ba);
    hide Updates, Acks, UpdateIn, AckIn;
  }

  /** The update passes from the channel to the end that will acknowledge it. */
  lemma UpdateKeeps(p: Pair, q: Pair, u: Switch)
    requires Lockstep(p) && Lockstep(Swap(p)) && p.ba != [] && p.ba[0].body == KeyUpdate(Some(u)) && p.a.owed.None?
    requires q == p.(a := p.a.(place := q.a.place, recvUpdate := Some(u), owed := Some(u)), ba := p.ba[1..])
    requires u.nextEpoch == q.a.place.next.epoch == p.a.place.next.epoch + 1
    ensures Lockstep(q) && Lockstep(Swap(q))
  {
    AtMostOne(Swap(p));
    assert Updates(p.ba) == [u] + Updates(q.ba) && Acks(p.ba) == Acks(q.ba);
    hide Updates, Acks;
    assert Updates(q.ba) == [] && Acks(p.ab) == [];
  }

  /** An acknowledgement that arrives is for the pending update. */
  lemma AckIsPending(p: Pair, acked: Switch)
    requires Lockstep(p) && p.ba != [] && AckIn(p.ba[0].body) == [acked]
    ensures p.a.sendUpdate == Some(acked) && acked.nextEpoch == p.b.place.next.epoch
    ensures Updates(p.ab) == [] && p.b.owed.None? && Acks(p.ba[1..]) == []
  {
    AtMostOne(p);
    assert Acks(p.ba) == [acked] + Acks(p.ba[1..]);
    hide Updates, Acks, AckIn;
    assert (Updates(p.ab) + AsSeq(p.b.owed) + Acks(p.ba))[0] == acked;
  }

  lemma AckKeeps(p: Pair, q: Pair, acked: Switch)
    requires Lockstep(p) && Lockstep(Swap(p)) && p.ba != [] && AckIn(p.ba[0].body) == [acked]
    requires q.a.next.epoch == acked.nextEpoch && q.a.sendUpdate.None? && q.a.place.next.epoch == p.a.place.next.epoch
    requires q == p.(a := p.a.(place := q.a.place, next := q.a.next, sendUpdate := q.a.sendUpdate,
                               sendUpdateAck := q.a.sendUpdateAck),
                     ba := p.ba[1..])
    ensures Lockstep(q) && Lockstep(Swap(q))
  {
    AckIsPending(p, acked);
    assert Updates(p.ba) == Updates(q.ba);
    hide Updates, Acks, AckIn;
  }

  lemma AdmittedKeepsEpoch(p: Position, r: Record, oneShot: bool)
    ensures Admitted(p, r, oneShot).Some? ==> Admitted(p, r, oneShot).value.next.epoch == p.next.epoch
  {
  }

  lemma ReceiveKeeps(p: Pair, reader: Reader, derivable: bool, q: Pair)
    requires Lockstep(p) && Lockstep(Swap(p)) && Receive(p, reader, derivable) == Some(q) && Live(p) && Live(q)
    ensures Lockstep(q) && Lockstep(Swap(q))
  {
    hide Lockstep, Admitted;
    var body := p.ba[0].body;
    AdmittedKeepsEpoch(p.a.place, p.ba[0], reader.Reading?);
    match body
    case KeyUpdate(update) => UpdateKeeps(p, q, update.value);
    case KeyUpdateAck(_, acked) =>
      AckIsPending(p, acked.value);
      AckKeeps(p, q, acked.value);
    case _ => PlainKeeps(p, q);
  }

  lemma AdoptKeeps(p: Pair, q: Pair)
    requires Lockstep(p) && Lockstep(Swap(p)) && Adopt(p) == Some(q)
    ensures Lockstep(q) && Lockstep(Swap(q))
  {
    hide Updates, Acks;
  }

  lemma DoKeeps(p: Pair, step: Step, q: Pair)
    requires Lockstep(p) && Lockstep(Swap(p)) && Live(p) && Live(q) && Do(p, step) == Some(q)
    ensures Lockstep(q) && Lockstep(Swap(q))
  {
    hide Lockstep, Receive, Put;
    match step
    case Write(body) => PutKeeps(p, p, body, q);
    case SendUpdate(switch) =>
      PutKeeps(p, p.(a := p.a.(sendUpdate := Some(switch), sendUpdateAck := None)), KeyUpdate(Some(switch)), q);
    case SendAck => PutKeeps(p, p.(a := p.a.(owed := None)), KeyUpdateAck(p.a.id, p.a.owed), q);
    case AdoptUpdate => AdoptKeeps(p, q);
    case ReadNext(reader, derivable) => ReceiveKeeps(p, reader, derivable, q);
  }

  // ----- Labels ---------------------------------------------------------------------

  lemma {:induction false} ReachAppended(q: seq<Record>, next: Label, r: Record)
    requires Reach(q, next).Some?
    ensures Reach(q + [r], next) ==
            var end := Reach(q, next).value;
            if r.stamp.epoch < end.epoch then Some(end)
            else if r.stamp != end then None else Some(Passed(end, r.body))
    decreases |q|
  {
    if q == [] {
      assert q + [r] == [r] && [r][1..] == [];
    } else {
      assert (q + [r])[0] == q[0] && (q + [r])[1..] == q[1..] + [r];
      if q[0].stamp.epoch < next.epoch {
        ReachAppended(q[1..], next, r);
      } else {
        ReachAppended(q[1..], Passed(next, q[0].body), r);
      }
    }
  }

  /** What a writer puts behind its own update is in an epoch its peer will have left. */
  lemma PutInStep(p: Pair, r: Pair, body: Body, q: Pair)
    requires InStep(p) && InStep(Swap(p)) && Put(r, body) == Some(q)
    requires r == p.(a := p.a.(sendUpdate := r.a.sendUpdate, sendUpdateAck := r.a.sendUpdateAck, owed := r.a.owed))
    requires if body.KeyUpdate? then p.a.sendUpdate.None? && r.a.sendUpdate.Some? else r.a.sendUpdate == p.a.sendUpdate
    ensures InStep(q) && InStep(Swap(q))
  {
    hide Reach;
    ReachAppended(p.ab, p.b.place.next, Record(p.a.next, body));
  }

  /** A record that is accepted leaves the reader as far from the writer as before. */
  lemma ReachPopped(q: seq<Record>, place: Position, oneShot: bool)
    requires q != [] && Reach(q, place.next).Some? && Admitted(place, q[0], oneShot).Some?
    requires place.prior.Some? ==> place.prior.value.epoch < place.next.epoch
    ensures var next := Admitted(place, q[0], oneShot).value.next;
            if TakesPrior(place, q[0], oneShot) then next == place.next && Reach(q[1..], next) == Reach(q, place.next)
            else q[0].stamp == place.next && next == Label(place.next.epoch, place.next.sequence + 1)
                 && Reach(q[1..], Passed(place.next, q[0].body)) == Reach(q, place.next)
  {
  }

  lemma ReceivedPlace(p: Pair, reader: Reader, derivable: bool, q: Pair)
    requires Live(p) && Live(q) && Receive(p, reader, derivable) == Some(q)
    ensures q.b == p.b && q.ab == p.ab && q.ba == p.ba[1..]
    ensures Admitted(p.a.place, p.ba[0], reader.Reading?).Some?
    ensures q.a.place == var place := Admitted(p.a.place, p.ba[0], reader.Reading?).value;
                         if p.ba[0].body.KeyUpdate? then Updated(place) else place
    ensures !p.ba[0].body.KeyUpdateAck? ==> q.a.next == p.a.next && q.a.sendUpdate == p.a.sendUpdate
  {
    hide Admitted;
  }

  /** An acknowledgement moves the writer to where its peer already expects it. */
  lemma AckedAhead(p: Pair, reader: Reader, derivable: bool, q: Pair)
    requires Live(p) && Live(q) && Receive(p, reader, derivable) == Some(q) && Lockstep(p)
    ensures Ahead(q.a) == Ahead(p.a)
  {
    hide Updates, Acks, Admitted;
    if p.ba[0].body.KeyUpdateAck? {
      AckIsPending(p, p.ba[0].body.acked.value);
    } else {
      ReceivedPlace(p, reader, derivable, q);
    }
  }

  lemma ReceiveInStep(p: Pair, reader: Reader, derivable: bool, q: Pair)
    requires Lockstep(p) && InStep(p) && InStep(Swap(p)) && Live(p) && Live(q)
    requires Receive(p, reader, derivable) == Some(q)
    ensures InStep(q) && InStep(Swap(q))
  {
    ReceivedPlace(p, reader, derivable, q);
    AckedAhead(p, reader, derivable, q);
    ReachPopped(p.ba, p.a.place, reader.Reading?);
    hide Reach, Receive, Lockstep, Ahead;
    assert forall x <- q.ba :: x in p.ba;
  }

  lemma AdoptInStep(p: Pair, q: Pair)
    requires InStep(p) && InStep(Swap(p)) && Adopt(p) == Some(q)
    ensures InStep(q) && InStep(Swap(q))
  {
    hide Reach;
  }

  lemma DoInStep(p: Pair, step: Step, q: Pair)
    requires Lockstep(p) && InStep(p) && InStep(Swap(p)) && Live(p) && Live(q) && Do(p, step) == Some(q)
    ensures InStep(q) && InStep(Swap(q))
  {
    hide Lockstep, InStep, Receive, Put;
    match step
    case Write(body) => PutInStep(p, p, body, q);
    case SendUpdate(switch) =>
      PutInStep(p, p.(a := p.a.(sendUpdate := Some(switch), sendUpdateAck := None)), KeyUpdate(Some(switch)), q);
    case SendAck => PutInStep(p, p.(a := p.a.(owed := None)), KeyUpdateAck(p.a.id, p.a.owed), q);
    case AdoptUpdate => AdoptInStep(p, q);
    case ReadNext(reader, derivable) => ReceiveInStep(p, reader, derivable, q);
  }

  lemma PlayKeeps(p: Pair, move: Move, q: Pair)
    requires Invariant(p) && Play(p, move) == Some(q)
    ensures Invariant(q)
  {
    hide Lockstep, InStep, Do;
    assert Swap(Swap(p)) == p && Swap(Swap(q)) == q;
    if Live(q) {
      match move
      case ByA(step) => DoKeeps(p, step, q); DoInStep(p, step, q);
      case ByB(step) => DoKeeps(Swap(p), step, Swap(q)); DoInStep(Swap(p), step, Swap(q));
    }
  }

  lemma {:induction false} RunKeeps(p: Pair, moves: seq<Move>, q: Pair)
    requires Invariant(p) && PlayAll(p, moves) == Some(q)
    ensures Invariant(q)
    decreases |moves|
  {
    hide Invariant, Play;
    if moves != [] {
      PlayKeeps(p, moves[0], Play(p, moves[0]).value);
      RunKeeps(Play(p, moves[0]).value, moves[1..], q);
    }
  }

  lemma NewPairKeeps(id: nat, forth: nat, back: nat)
    ensures Invariant(NewPair(id, forth, back))
  {
  }

  // ----- Every run ------------------------------------------------------------------

  /** A state of some run of the stream, seen from either end. */
  ghost predicate Occurs(p: Pair) {
    exists id, forth, back, moves :: PlayAll(NewPair(id, forth, back), moves) in {Some(p), Some(Swap(p))}
  }

  lemma OccursLockstep(p: Pair)
    requires Occurs(p) && Live(p)
    ensures Lockstep(p) && Lockstep(Swap(p)) && InStep(p) && InStep(Swap(p))
  {
    hide Lockstep, InStep, PlayAll;
    var id, forth, back, moves :| PlayAll(NewPair(id, forth, back), moves) in {Some(p), Some(Swap(p))};
    NewPairKeeps(id, forth, back);
    RunKeeps(NewPair(id, forth, back), moves, PlayAll(NewPair(id, forth, back), moves).value);
    assert Swap(Swap(p)) == p;
  }

  /** However updates cross, the receiver's epoch is the sender's, or the one above while the
      sender's update has been taken in and its acknowledgement has not come back. */
  lemma StreamEpochLockstep(p: Pair)
    requires Occurs(p) && Live(p)
    ensures || p.b.place.next.epoch == p.a.next.epoch
            || (p.b.place.next.epoch == p.a.next.epoch + 1
                && p.a.sendUpdate.Some? && p.a.sendUpdate.value.nextEpoch == p.b.place.next.epoch)
    ensures p.a.sendUpdate.None? ==> p.b.place.next.epoch == p.a.next.epoch && Updates(p.ab) == [] && p.b.owed.None?
  {
    hide Occurs, Updates, Acks, InStep, WellFormed;
    OccursLockstep(p);
    AtMostOne(p);
    var back := AsSeq(p.b.owed) + Acks(p.ba);
    if back != [] {
      assert Updates(p.ab) + AsSeq(p.b.owed) + Acks(p.ba) == back;
      assert back[0] in back && back[0] == p.a.sendUpdate.value;
    }
  }

  /** An acknowledgement whose label is accepted always completes the pending update and
      brings the two ends level; none is a duplicate and none is unknown. */
  lemma AckAlwaysCompletes(p: Pair, derivable: bool)
    requires Occurs(p) && Live(p) && p.ba != [] && p.ba[0].body.KeyUpdateAck?
    requires p.a.owed.None? && Admitted(p.a.place, p.ba[0], true).Some?
    ensures var q := Receive(p, Reading, derivable).value;
            Live(q) && q.a.sendUpdate.None? && q.a.next == Label(q.b.place.next.epoch, 0)
  {
    hide Occurs, Updates, Acks, Admitted;
    OccursLockstep(p);
    assert p.ba[0] in p.ba && p.ba[0].body.acked.Some?;
    AckIsPending(p, p.ba[0].body.acked.value);
  }

  // ----- When an end breaks ---------------------------------------------------------

  /** The record was sent behind an update that this end has taken in, and it is not the
      acknowledgement right behind it, met by a reader that takes acknowledgements. */
  predicate SentBehindUpdate(e: End, r: Record, reader: Reader) {
    r.stamp.epoch < e.place.next.epoch && !(reader.Reading? && r.body.KeyUpdateAck? && e.place.prior == Some(r.stamp))
  }

  /** An update that this end cannot take: the last one has not been adopted, the roots are
      not to be had, the numbers are used up or wrong, or the session waits for another one. */
  predicate UnfitUpdate(e: End, r: Record, reader: Reader, derivable: bool) {
    && r.body.KeyUpdate? && r.body.update.Some?
    && (|| e.recvUpdate.Some? || !derivable || r.body.update.value.transition == 0
        || r.body.update.value.nextEpoch != r.stamp.epoch + 1 || r.stamp.epoch >= U32_MAX
        || (reader.AwaitingUpdate? && reader.switch != r.body.update.value))
  }

  /** In a run of both ends, an end breaks exactly when it reads a record that was sent behind
      an update, an acknowledgement while it waits for the peer's update, or an update that
      it cannot take. No other label is ever refused, and no acknowledgement is unexpected. */
  lemma EndBreaksExactly(p: Pair, step: Step, q: Pair)
    requires Occurs(p) && Live(p) && Do(p, step) == Some(q)
    ensures q.a.broken <==>
            && step.ReadNext? && p.ba != []
            && var r := p.ba[0];
               || SentBehindUpdate(p.a, r, step.reader)
               || (r.body.KeyUpdateAck? && step.reader.AwaitingUpdate?)
               || UnfitUpdate(p.a, r, step.reader, step.derivable)
  {
    if step.ReadNext? {
      OccursLockstep(p);
      hide Occurs;
      ReadBreaksExactly(p, step.reader, step.derivable, q);
    }
  }

  lemma ReadBreaksExactly(p: Pair, reader: Reader, derivable: bool, q: Pair)
    requires Lockstep(p) && Lockstep(Swap(p)) && InStep(Swap(p)) && Live(p) && Receive(p, reader, derivable) == Some(q)
    ensures q.a.broken <==>
            var r := p.ba[0];
            || SentBehindUpdate(p.a, r, reader)
            || (r.body.KeyUpdateAck? && reader.AwaitingUpdate?)
            || UnfitUpdate(p.a, r, reader, derivable)
  {
    var r := p.ba[0];
    assert r in p.ba;
    assert r.stamp.epoch < p.a.place.next.epoch || r.stamp == p.a.place.next;
    if r.body.KeyUpdateAck? {
      AckIsPending(p, r.body.acked.value);
    }
    hide Reach, Updates, Acks;
  }

  /** Two rekeys that cross: the end that waits for the peer's update meets the acknowledgement
      of its own one first, and breaks. */
  lemma CrossingRekeyBreaksStream(id: nat, switch: Switch)
    requires switch.transition != 0 && switch.nextEpoch == 1
    ensures exists p :: Occurs(p) && Live(p) && p.a.sendUpdate == p.b.sendUpdate == Some(switch)
                        && Receive(p, AwaitingUpdate(switch), true).Some?
                        && Receive(p, AwaitingUpdate(switch), true).value.a.broken
                        && Receive(p, Reading, true).value.a.next == Label(1, 0)
  {
    var p0 := NewPair(id, 0, 0);
    var p1 := Do(p0, SendUpdate(switch)).value;
    var p2 := Swap(Do(Swap(p1), ReadNext(Reading, true)).value);
    var p3 := Swap(Do(Swap(p2), SendAck).value);
    var p4 := Swap(Do(Swap(p3), SendUpdate(switch)).value);
    var moves := [ByA(SendUpdate(switch)), ByB(ReadNext(Reading, true)), ByB(SendAck), ByB(SendUpdate(switch))];
    FourMoves(p0, moves, p1, p2, p3, p4);
    assert PlayAll(NewPair(id, 0, 0), moves) in {Some(p4), Some(Swap(p4))};
    assert Occurs(p4);
  }

  lemma FourMoves(p0: Pair, moves: seq<Move>, p1: Pair, p2: Pair, p3: Pair, p4: Pair)
    requires |moves| == 4 && Play(p0, moves[0]) == Some(p1) && Play(p1, moves[1]) == Some(p2)
    requires Play(p2, moves[2]) == Some(p3) && Play(p3, moves[3]) == Some(p4)
    ensures PlayAll(p0, moves) == Some(p4)
  {
    hide Play;
    assert PlayAll(p4, []) == Some(p4);
    assert moves[3..][1..] == [] && PlayAll(p3, moves[3..]) == Some(p4);
    assert moves[2..][1..] == moves[3..] && PlayAll(p2, moves[2..]) == Some(p4);
    assert moves[1..][1..] == moves[2..] && PlayAll(p1, moves[1..]) == Some(p4);
  }
}
