/** The records of one logical stream. Each direction numbers its records within an
    epoch; a STREAM_KEY_UPDATE moves the receiving side to the next epoch at once, and
    its acknowledgement moves the sending side. Three readers share the stream: `read`,
    the wait for the peer's update and the wait for the peer's acknowledgement; what the
    two waits read is buffered for `read`. */
module StreamRecords {
  import opened Basics
  import opened ByteStrings
  import opened Labels

  datatype Switch = Switch(transition: nat, nextEpoch: nat)

  // A body whose payload has the wrong length carries no fields.
  datatype Body =
    | Data(payload: Bytes)
    | Fin
    | KeyUpdate(update: Option<Switch>)
    | KeyUpdateAck(streamId: nat, acked: Option<Switch>)
    | Unexpected

  datatype Record = Record(stamp: Label, body: Body)

  // ----- Which labels a reader accepts ----------------------------------------------

  /** The next label in order, and the one old-epoch label at which an acknowledgement
      may still arrive after an update. */
  datatype Position = Position(next: Label, prior: Option<Label>)

  predicate TakesPrior(p: Position, r: Record, oneShot: bool) {
    oneShot && r.body.KeyUpdateAck? && p.prior == Some(r.stamp)
  }

  function Admitted(p: Position, r: Record, oneShot: bool): Option<Position> {
    if TakesPrior(p, r, oneShot) then Some(p.(prior := None))
    else if r.stamp == p.next && p.next.sequence < U64_MAX then
      Some(p.(next := Label(p.next.epoch, p.next.sequence + 1)))
    else None
  }

  function Updated(p: Position): Position {
    Position(Label(p.next.epoch + 1, 0), Some(p.next))
  }

  ghost predicate Unused(l: Label, received: seq<Record>) {
    forall r <- received :: r.stamp != l
  }

  // Nothing received is at or after `next`, and the remembered position is still unused.
  ghost predicate Fresh(p: Position, received: seq<Record>) {
    && (forall r <- received :: Before(r.stamp, p.next))
    && (p.prior.Some? ==> Before(p.prior.value, p.next) && Unused(p.prior.value, received))
  }

  ghost predicate Distinct(received: seq<Record>) {
    forall i, j :: 0 <= i < j < |received| ==> received[i].stamp != received[j].stamp
  }

  lemma AdmittedIsNew(p: Position, received: seq<Record>, r: Record, oneShot: bool)
    requires Fresh(p, received) && Distinct(received)
    requires Admitted(p, r, oneShot).Some?
    ensures Unused(r.stamp, received) && Distinct(received + [r])
    ensures Fresh(Admitted(p, r, oneShot).value, received + [r])
  {}

  lemma UpdatedIsFresh(p: Position, received: seq<Record>)
    requires Fresh(p, received)
    ensures Fresh(Updated(p), received)
  {}

  /** Once an update at the label before `p.next` has been handled, the old epoch is over:
      of its labels only the very next one is accepted, only for an acknowledgement, and only
      by a reader that takes acknowledgements. */
  lemma AfterUpdateAcceptsExactly(p: Position, r: Record, oneShot: bool)
    ensures Admitted(Updated(p), r, oneShot).Some? <==>
            || r.stamp == Label(p.next.epoch + 1, 0)
            || (oneShot && r.body.KeyUpdateAck? && r.stamp == p.next)
  {}

  // ----- What readers hold ----------------------------------------------------------

  /** What `read` is to return for these records: payloads, and `None` for FIN. */
  ghost function Items(received: seq<Record>): seq<Option<Bytes>> {
    if received == [] then []
    else Items(received[..|received| - 1]) + ItemsOf(received[|received| - 1].body)
  }

  ghost function ItemsOf(body: Body): seq<Option<Bytes>> {
    match body
    case Data(payload) => [Some(payload)]
    case Fin => [None]
    case _ => []
  }

  lemma ItemsAppend(received: seq<Record>, r: Record)
    ensures Items(received + [r]) == Items(received) + ItemsOf(r.body)
  {
    assert (received + [r])[..|received|] == received;
  }

  lemma {:induction false} ItemsJoin(before: seq<Record>, after: seq<Record>)
    ensures Items(before + after) == Items(before) + Items(after)
    decreases |after|
  {
    if after == [] {
      assert before + after == before;
    } else {
      var n := |after| - 1;
      assert before + after == before + after[..n] + [after[n]];
      ItemsJoin(before, after[..n]);
      ItemsAppend(before + after[..n], after[n]);
    }
  }

  // Everything accepted was returned by `read` or is still buffered, and nothing else is.
  ghost predicate Conserved(received: seq<Record>, returned: seq<Option<Bytes>>, buffered: seq<Option<Bytes>>) {
    multiset(returned) + multiset(buffered) == multiset(Items(received))
  }

  lemma ReadReturns(received: seq<Record>, returned: seq<Option<Bytes>>, buffered: seq<Option<Bytes>>, r: Record)
    requires Conserved(received, returned, buffered)
    ensures Conserved(received + [r], returned + ItemsOf(r.body), buffered)
    ensures Conserved(received + [r], returned, buffered + ItemsOf(r.body))
    ensures ItemsOf(r.body) == [] ==> Conserved(received + [r], returned, buffered)
  {
    ItemsAppend(received, r);
    hide ItemsOf, Items;
  }

  lemma ReadPops(received: seq<Record>, returned: seq<Option<Bytes>>, buffered: seq<Option<Bytes>>)
    requires Conserved(received, returned, buffered) && buffered != []
    ensures Conserved(received, returned + [buffered[0]], buffered[1..])
  {
    hide Items;
    assert buffered == [buffered[0]] + buffered[1..];
  }

  lemma Overtakes(returned: seq<Option<Bytes>>, buffered: seq<Option<Bytes>>, x: Option<Bytes>)
    ensures returned + [x] + buffered == returned + buffered + [x] <==> [x] + buffered == buffered + [x]
  {
    var n := |returned|;
    assert (returned + [x] + buffered)[n..] == [x] + buffered;
    assert (returned + buffered + [x])[n..] == buffered + [x];
    assert returned + [x] + buffered == returned + ([x] + buffered);
    assert returned + buffered + [x] == returned + (buffered + [x]);
  }

  lemma TakeOneMore(before: seq<Record>, records: seq<Record>, taken: nat)
    requires taken < |records|
    ensures before + records[..taken] + [records[taken]] == before + records[..taken + 1]
  {}

  // ----- What writers send ----------------------------------------------------------

  /** Where a writer stands: its next label if it stays in its epoch, and whether it has
      sent an update in that epoch. After an update it may go on in the next epoch. */
  datatype Pen = Pen(next: Label, updated: bool)

  predicate Follows(w: Pen, r: Record) {
    || (r.stamp == w.next && !(w.updated && r.body.KeyUpdate?))
    || (r.stamp == Label(w.next.epoch + 1, 0) && w.updated)
  }

  function After(w: Pen, r: Record): Pen {
    Pen(Label(r.stamp.epoch, r.stamp.sequence + 1),
        r.body.KeyUpdate? || (w.updated && r.stamp.epoch == w.next.epoch))
  }

  // Where the writer stands after a log of records that follow one another.
  ghost function PenAfter(start: Pen, log: seq<Record>): Option<Pen> {
    if log == [] then Some(start)
    else
      var w := PenAfter(start, log[..|log| - 1]);
      if w.None? || !Follows(w.value, log[|log| - 1]) then None else Some(After(w.value, log[|log| - 1]))
  }

  ghost predicate Ordered(log: seq<Record>) {
    forall i, j :: 0 <= i < j < |log| ==> Before(log[i].stamp, log[j].stamp)
  }

  // Nothing was sent at or after the writer's next label.
  lemma {:induction false} LogIsOrdered(start: Pen, log: seq<Record>)
    requires PenAfter(start, log).Some?
    ensures Ordered(log)
    ensures forall r <- log :: Before(r.stamp, PenAfter(start, log).value.next)
    decreases |log|
  {
    if log != [] {
      LogIsOrdered(start, log[..|log| - 1]);
      assert log == log[..|log| - 1] + [log[|log| - 1]];
    }
  }

  lemma LogGrows(start: Pen, log: seq<Record>, r: Record)
    requires PenAfter(start, log).Some? && Follows(PenAfter(start, log).value, r)
    ensures PenAfter(start, log + [r]) == Some(After(PenAfter(start, log).value, r))
    ensures forall x <- log :: x.stamp != r.stamp
  {
    LogIsOrdered(start, log);
    assert (log + [r])[..|log|] == log;
  }

  // The writer's log is in order and its counters agree with it.
  ghost predicate InOrder(start: Pen, sent: seq<Record>, next: Label, pending: Option<Switch>) {
    PenAfter(start, sent).Some? && Written(PenAfter(start, sent).value, next, pending)
  }

  // Behind a pending update the writer stays in its epoch; the acknowledgement moves it on.
  ghost predicate Written(w: Pen, next: Label, pending: Option<Switch>) {
    && (pending.Some? ==> next == w.next && w.updated && pending.value.nextEpoch == next.epoch + 1)
    && (pending.None? ==> if w.updated then next == Label(w.next.epoch + 1, 0) else next == w.next)
  }

  datatype AckDisposition = Pending | Duplicate | Unknown

  function ClassifyAck<T(==)>(pending: Option<T>, last: Option<T>, received: T): AckDisposition {
    if pending == Some(received) then Pending
    else if pending.None? && last == Some(received) then Duplicate
    else Unknown
  }

  // ----- One end as a value ---------------------------------------------------------

  /** What one end of a stream keeps. `owed` is an update that was taken in and whose
      acknowledgement is not yet written; a record that is refused breaks the end. */
  datatype End = End(
    id: nat, next: Label, place: Position,
    sendUpdate: Option<Switch>, sendUpdateAck: Option<Switch>, recvUpdate: Option<Switch>,
    remoteFin: bool, owed: Option<Switch>, broken: bool)

  /** Who takes a record: `read` or the wait for an acknowledgement, or the wait for the
      peer's update, which expects one particular update and no acknowledgement. */
  datatype Reader = Reading | AwaitingUpdate(switch: Switch)

  /** `derivable` says whether the session holds, or can derive, the next receive roots. */
  function TakeUpdate(e: End, update: Option<Switch>, reader: Reader, derivable: bool): End {
    if || update.None? || update.value.transition == 0
       || !(update.value.nextEpoch == e.place.next.epoch + 1 <= U32_MAX)
       || e.recvUpdate.Some? || !derivable
    then e.(broken := true)
    else e.(place := Updated(e.place), recvUpdate := update, owed := update,
            broken := reader.AwaitingUpdate? && reader.switch != update.value)
  }

  function TakeAck(e: End, streamId: nat, acked: Option<Switch>): End {
    if acked.None? || streamId != e.id then e.(broken := true)
    else match ClassifyAck(e.sendUpdate, e.sendUpdateAck, acked.value)
      case Duplicate => e
      case Unknown => e.(broken := true)
      case Pending => e.(next := Label(acked.value.nextEpoch, 0), sendUpdate := None, sendUpdateAck := acked)
  }

  function TakeBody(e: End, body: Body, reader: Reader, derivable: bool): End {
    match body
    case Data(_) => e
    case Fin => e.(remoteFin := true)
    case KeyUpdate(update) => TakeUpdate(e, update, reader, derivable)
    case KeyUpdateAck(streamId, acked) => if reader.Reading? then TakeAck(e, streamId, acked) else e.(broken := true)
    case Unexpected => e.(broken := true)
  }

  function TakeRecord(e: End, r: Record, reader: Reader, derivable: bool): End {
    match Admitted(e.place, r, reader.Reading?)
    case None => e.(broken := true)
    case Some(place) => TakeBody(e.(place := place), r.body, reader, derivable)
  }

  /** Writes the acknowledgement that is owed. */
  function PayAck(e: End): End {
    if e.owed.None? then e
    else if e.next.sequence >= U64_MAX then e.(owed := None, broken := true)
    else e.(owed := None, next := Label(e.next.epoch, e.next.sequence + 1))
  }

  /** The end after these records have been taken, each acknowledged before the next. */
  ghost function TakeAll(e: End, records: seq<Record>, reader: Reader, derivable: bool): End {
    if records == [] then e
    else
      var n := |records| - 1;
      PayAck(TakeRecord(TakeAll(e, records[..n], reader, derivable), records[n], reader, derivable))
  }

  lemma TakeOneMoreRecord(e: End, records: seq<Record>, taken: nat, reader: Reader, derivable: bool)
    requires taken < |records|
    ensures TakeAll(e, records[..taken + 1], reader, derivable)
            == PayAck(TakeRecord(TakeAll(e, records[..taken], reader, derivable), records[taken], reader, derivable))
  {
    assert records[..taken + 1][..taken] == records[..taken];
  }

  /** A reader that has not failed is where its records lead. One that has failed is where
      they lead with the last one breaking the end, or refuses the label of the next one. */
  ghost predicate Reaches(e: End, records: seq<Record>, taken: nat, reader: Reader, derivable: bool, end: End,
                          failed: bool)
    requires taken <= |records|
  {
    var led := TakeAll(e, records[..taken], reader, derivable);
    if !failed then end == led
    else
      || (end == led && taken < |records| && Admitted(end.place, records[taken], reader.Reading?).None?)
      || (taken > 0 && end.(broken := true) == led)
  }

  lemma NothingTaken(e: End, records: seq<Record>, reader: Reader, derivable: bool)
    ensures records[..0] == [] && Items(records[..0]) == [] && TakeAll(e, records[..0], reader, derivable) == e
  {
  }

  lemma ItemsGrow(records: seq<Record>, taken: nat)
    requires taken < |records|
    ensures Items(records[..taken + 1]) == Items(records[..taken]) + ItemsOf(records[taken].body)
  {
    assert records[..taken + 1] == records[..taken] + [records[taken]];
    ItemsAppend(records[..taken], records[taken]);
  }

  // What one record does to an end that owes nothing.
  lemma RecordTaken(e: End, r: Record, reader: Reader, derivable: bool)
    requires e.owed.None? && !e.broken
    ensures var q := Admitted(e.place, r, reader.Reading?);
            PayAck(TakeRecord(e, r, reader, derivable)) ==
            if q.None? then e.(broken := true)
            else if r.body.Data? then e.(place := q.value)
            else if r.body.Fin? then e.(place := q.value, remoteFin := true)
            else PayAck(TakeBody(e.(place := q.value), r.body, reader, derivable))
  {
    hide Admitted;
  }

  // An item never breaks the end.
  lemma ItemsNeverBreak(e: End, r: Record, reader: Reader, derivable: bool)
    requires e.owed.None? && !e.broken && Admitted(e.place, r, reader.Reading?).Some?
    ensures ItemsOf(r.body) != [] ==> !PayAck(TakeRecord(e, r, reader, derivable)).broken
  {
    hide Admitted;
  }

  // Order after one more item was returned past what is buffered.
  lemma OrderAfter(received: seq<Record>, returned: seq<Option<Bytes>>, buffered: seq<Option<Bytes>>, more: seq<Record>,
                   item: seq<Option<Bytes>>)
    requires returned + buffered == Items(received) && Items(more) == item && |item| <= 1
    ensures returned + item + buffered == Items(received + more) <==> item + buffered == buffered + item
  {
    ItemsJoin(received, more);
    hide Items;
    if item == [] {
      assert returned + item == returned && item + buffered == buffered == buffered + item;
    } else {
      assert item == [item[0]];
      Overtakes(returned, buffered, item[0]);
    }
  }

  // The wait for an update goes on after data only; FIN ends it, and so does its update.
  lemma WaitContent(e: End, r: Record, switch: Switch, derivable: bool)
    requires e.owed.None? && !e.broken && e.recvUpdate != Some(switch)
    ensures var end := PayAck(TakeRecord(e, r, AwaitingUpdate(switch), derivable));
            !end.broken ==> r.body.Data? || r.body.Fin? || end.recvUpdate == Some(switch)
  {
  }

  datatype ReadOutcome = Returned(data: Option<Bytes>) | Waiting | Failed

  datatype WaitOutcome = Done | StillWaiting | Refused

  // ----- The stream -----------------------------------------------------------------

  class EncryptedStream {
    const id: nat
    var recvEpoch: nat
    var recvSequence: nat
    var priorAck: Option<Label>
    var recvUpdate: Option<Switch>
    var sendEpoch: nat
    var sendSequence: nat
    var sendUpdate: Option<Switch>
    var sendUpdateAck: Option<Switch>
    var bufferedReads: seq<Option<Bytes>>
    var localFin: bool
    var remoteFin: bool
    var resetDone: bool
    ghost const start: Pen
    ghost var received: seq<Record>
    ghost var returned: seq<Option<Bytes>>
    ghost var sent: seq<Record>

    ghost function Place(): Position
      reads this
    {
      Position(Label(recvEpoch, recvSequence), priorAck)
    }

    ghost function View(): End
      reads this
    {
      End(id, Label(sendEpoch, sendSequence), Place(), sendUpdate, sendUpdateAck, recvUpdate, remoteFin, None, false)
    }

    // What was returned, then what is buffered, is what was accepted, in order.
    ghost predicate InSequence()
      reads this
    {
      returned + bufferedReads == Items(received)
    }

    // No label received twice, no payload lost or invented, every record sent in order.
    ghost predicate Valid()
      reads this
    {
      && Distinct(received)
      && Fresh(Place(), received)
      && Conserved(received, returned, bufferedReads)
      && InOrder(start, sent, Label(sendEpoch, sendSequence), sendUpdate)
    }

    constructor (id: nat, sendEpoch: nat, recvEpoch: nat)
      ensures Valid() && InSequence() && start == Pen(Label(sendEpoch, 1), false)
      ensures View() == End(id, Label(sendEpoch, 1), Position(Label(recvEpoch, 1), None), None, None, None, false,
                            None, false)
      ensures received == [] && returned == [] && bufferedReads == [] && sent == []
      ensures !localFin && !resetDone
    {
      this.id := id;
      this.recvEpoch := recvEpoch;
      this.recvSequence := 1;
      this.priorAck := None;
      this.recvUpdate := None;
      this.sendEpoch := sendEpoch;
      this.sendSequence := 1;
      this.sendUpdate := None;
      this.sendUpdateAck := None;
      this.bufferedReads := [];
      this.localFin := false;
      this.remoteFin := false;
      this.resetDone := false;
      this.start := Pen(Label(sendEpoch, 1), false);
      this.received := [];
      this.returned := [];
      this.sent := [];
    }

    method WriteRecord(body: Body) returns (r: Option<Label>)
      requires Valid() && !body.KeyUpdate?
      modifies this`sendSequence, this`sent
      ensures Valid()
      ensures r == if old(sendSequence) < U64_MAX then Some(Label(sendEpoch, old(sendSequence))) else None
      ensures sent == if r.Some? then old(sent) + [Record(r.value, body)] else old(sent)
      ensures sendSequence == old(sendSequence) + if r.Some? then 1 else 0
    {
      hide Distinct, Fresh, Conserved, PenAfter;
      if sendSequence >= U64_MAX {
        return None;
      }
      var stamp := Label(sendEpoch, sendSequence);
      LogGrows(start, sent, Record(stamp, body));
      sendSequence := sendSequence + 1;
      sent := sent + [Record(stamp, body)];
      return Some(stamp);
    }

    /** At most one record's worth is written; the length written is returned. */
    method WriteData(payload: Bytes) returns (r: Option<nat>)
      requires Valid()
      modifies this`sendSequence, this`sent
      ensures Valid()
      ensures r.Some? <==> payload == [] || (!localFin && !resetDone && old(sendSequence) < U64_MAX)
      ensures r.Some? ==> r.value == if |payload| < 16_384 then |payload| else 16_384
      ensures sent == if r.Some? && payload != []
                      then old(sent) + [Record(Label(sendEpoch, old(sendSequence)), Data(payload[..r.value]))]
                      else old(sent)
    {
      if payload == [] {
        return Some(0);
      }
      if localFin || resetDone {
        return None;
      }
      var length := if |payload| < MAX_DATA then |payload| else MAX_DATA;
      var stamp := WriteRecord(Data(payload[..length]));
      return if stamp.Some? then Some(length) else None;
    }

    // FIN is written once.
    method CloseWrite() returns (ok: bool)
      requires Valid()
      modifies this`localFin, this`sendSequence, this`sent
      ensures Valid() && localFin
      ensures ok <==> old(localFin) || old(sendSequence) < U64_MAX
      ensures sent == if ok && !old(localFin)
                      then old(sent) + [Record(Label(sendEpoch, old(sendSequence)), Fin)] else old(sent)
    {
      if localFin {
        return true;
      }
      localFin := true;
      var stamp := WriteRecord(Fin);
      return stamp.Some?;
    }

    // A reset is announced once; nothing is written after it.
    method Reset() returns (announce: bool)
      requires Valid()
      modifies this`resetDone
      ensures Valid() && resetDone && announce == !old(resetDone)
    {
      announce := !resetDone;
      resetDone := true;
    }

    method SendUpdate(switch: Switch) returns (ok: bool)
      requires Valid() && switch.nextEpoch == sendEpoch + 1
      modifies this`sendUpdate, this`sendUpdateAck, this`sendSequence, this`sent
      ensures Valid()
      ensures ok <==> old(sendUpdate).None? && old(sendSequence) < U64_MAX
      ensures sendUpdate == if ok then Some(switch) else old(sendUpdate)
      ensures sendUpdateAck == if old(sendUpdate).Some? then old(sendUpdateAck) else None
      ensures sent == if ok then old(sent) + [Record(Label(sendEpoch, old(sendSequence)), KeyUpdate(Some(switch)))]
                      else old(sent)
    {
      hide Distinct, Fresh, Conserved, PenAfter;
      if sendUpdate.Some? {
        return false;
      }
      sendUpdateAck := None;
      if sendSequence >= U64_MAX {
        return false;
      }
      var record := Record(Label(sendEpoch, sendSequence), KeyUpdate(Some(switch)));
      LogGrows(start, sent, record);
      sendUpdate := Some(switch);
      sendSequence := sendSequence + 1;
      sent := sent + [record];
      return true;
    }

    method ProcessAck(streamId: nat, acked: Option<Switch>) returns (ok: bool)
      requires Valid()
      modifies this`sendEpoch, this`sendSequence, this`sendUpdate, this`sendUpdateAck
      ensures Valid()
      ensures ok <==> && acked.Some? && streamId == id
                      && (|| old(sendUpdate) == acked
                          || (old(sendUpdate).None? && old(sendUpdateAck) == acked))
      ensures if ok && old(sendUpdate).Some? then
                sendEpoch == acked.value.nextEpoch && sendSequence == 0 && sendUpdate.None? && sendUpdateAck == acked
              else unchanged(this)
      ensures View().(broken := !ok) == TakeAck(old(View()), streamId, acked)
    {
      hide Distinct, Fresh, Conserved, PenAfter;
      if acked.None? || streamId != id {
        return false;
      }
      match ClassifyAck(sendUpdate, sendUpdateAck, acked.value) {
        case Duplicate => return true;
        case Unknown => return false;
        case Pending =>
      }
      sendEpoch := acked.value.nextEpoch;
      sendSequence := 0;
      sendUpdate := None;
      sendUpdateAck := acked;
      return true;
    }

    method AcceptHeader(r: Record, oneShot: bool) returns (ok: bool)
      requires Distinct(received) && Fresh(Place(), received)
      modifies this`recvSequence, this`priorAck, this`received
      ensures Distinct(received) && Fresh(Place(), received)
      ensures ok <==> Admitted(old(Place()), r, oneShot).Some?
      ensures ok ==> Place() == Admitted(old(Place()), r, oneShot).value && Unused(r.stamp, old(received))
      ensures !ok ==> Place() == old(Place())
      ensures received == if ok then old(received) + [r] else old(received)
    {
      if oneShot && r.body.KeyUpdateAck? && priorAck == Some(r.stamp) {
        AdmittedIsNew(Place(), received, r, oneShot);
        priorAck := None;
      } else {
        if r.stamp != Label(recvEpoch, recvSequence) || recvSequence >= U64_MAX {
          return false;
        }
        AdmittedIsNew(Place(), received, r, oneShot);
        recvSequence := recvSequence + 1;
      }
      received := received + [r];
      return true;
    }

    /** `derivable` says whether the session holds, or can derive, the next receive roots. */
    method HandleUpdate(update: Option<Switch>, derivable: bool) returns (ok: bool)
      requires Valid()
      modifies this`recvEpoch, this`recvSequence, this`priorAck, this`recvUpdate, this`sendSequence, this`sent
      ensures Valid()
      ensures var fits := && update.Some? && update.value.transition != 0
                          && update.value.nextEpoch == old(recvEpoch) + 1 <= U32_MAX
                          && old(recvUpdate).None? && derivable;
              && (ok <==> fits && old(sendSequence) < U64_MAX)
              && Place() == (if fits then Updated(old(Place())) else old(Place()))
              && recvUpdate == (if fits then update else old(recvUpdate))
      ensures sent == if ok then old(sent) + [Record(Label(sendEpoch, old(sendSequence)), KeyUpdateAck(id, update))]
                      else old(sent)
      ensures View().(broken := !ok) == PayAck(TakeUpdate(old(View()), update, Reading, derivable))
    {
      hide Distinct, Fresh, Conserved, PenAfter;
      if update.None? {
        return false;
      }
      var switch := update.value;
      if switch.transition == 0 || recvEpoch >= U32_MAX || switch.nextEpoch != recvEpoch + 1 {
        return false;
      }
      if recvUpdate.Some? || !derivable {
        return false;
      }
      UpdatedIsFresh(Place(), received);
      priorAck := Some(Label(recvEpoch, recvSequence));
      recvEpoch := switch.nextEpoch;
      recvSequence := 0;
      recvUpdate := update;
      var stamp := WriteRecord(KeyUpdateAck(id, update));
      return stamp.Some?;
    }

    // The session has adopted the update; the next one may come.
    method AdoptUpdate(switch: Switch)
      requires Valid()
      modifies this`recvUpdate
      ensures Valid() && recvUpdate == if old(recvUpdate) == Some(switch) then None else old(recvUpdate)
    {
      if recvUpdate == Some(switch) {
        recvUpdate := None;
      }
    }

    /** What a reader does with a record that is no item. */
    method TakeControl(body: Body, reader: Reader, derivable: bool) returns (ok: bool)
      requires Valid() && !body.Data? && !body.Fin?
      modifies this`recvEpoch, this`recvSequence, this`priorAck, this`recvUpdate, this`sendEpoch, this`sendSequence,
               this`sendUpdate, this`sendUpdateAck, this`sent
      ensures Valid()
      ensures View().(broken := !ok) == PayAck(TakeBody(old(View()), body, reader, derivable))
    {
      hide Distinct, Fresh, Conserved, InOrder;
      match body {
        case KeyUpdate(update) =>
          ok := HandleUpdate(update, derivable);
          if ok && reader.AwaitingUpdate? {
            ok := recvUpdate == Some(reader.switch);
          }
        case KeyUpdateAck(streamId, acked) =>
          if reader.Reading? {
            ok := ProcessAck(streamId, acked);
          } else {
            ok := false;
          }
        case _ => ok := false;
      }
    }

    /** The first half of `read`: a buffered item comes first. */
    method PopBuffered() returns (r: Option<Option<Bytes>>)
      requires Valid()
      modifies this`bufferedReads, this`returned
      ensures Valid() && (old(InSequence()) ==> InSequence())
      ensures r.None? <==> old(bufferedReads) == []
      ensures r.None? ==> bufferedReads == [] && returned == old(returned)
      ensures r.Some? ==> [r.value] + bufferedReads == old(bufferedReads) && returned == old(returned) + [r.value]
    {
      hide Distinct, Fresh, Conserved, InOrder;
      if bufferedReads == [] {
        return None;
      }
      ReadPops(received, returned, bufferedReads);
      var first := bufferedReads[0];
      assert bufferedReads == [first] + bufferedReads[1..];
      bufferedReads := bufferedReads[1..];
      returned := returned + [first];
      return Some(first);
    }

    /** One record, whoever reads it. An item goes to the caller of `read` or to the buffer. */
    method TakeOne(r: Record, reader: Reader, derivable: bool, buffer: bool) returns (accepted: bool, ok: bool)
      requires Valid()
      modifies this
      ensures Valid() && localFin == old(localFin) && resetDone == old(resetDone)
      ensures accepted <==> Admitted(old(Place()), r, reader.Reading?).Some?
      ensures received == if accepted then old(received) + [r] else old(received)
      ensures bufferedReads == if accepted && buffer then old(bufferedReads) + ItemsOf(r.body) else old(bufferedReads)
      ensures returned == if accepted && !buffer then old(returned) + ItemsOf(r.body) else old(returned)
      ensures !accepted ==> View() == old(View()) && !ok
      ensures accepted ==> View().(broken := !ok) == PayAck(TakeRecord(old(View()), r, reader, derivable))
    {
      hide Distinct, Fresh, Conserved, InOrder, Admitted, TakeRecord, TakeBody, PayAck, Items;
      ReadReturns(received, returned, bufferedReads, r);
      RecordTaken(View(), r, reader, derivable);
      accepted := AcceptHeader(r, reader.Reading?);
      if !accepted {
        return false, false;
      }
      if buffer {
        if r.body.Data? {
          bufferedReads := bufferedReads + [Some(r.body.payload)];
        } else if r.body.Fin? {
          bufferedReads := bufferedReads + [None];
        }
      } else {
        returned := returned + ItemsOf(r.body);
      }
      ok := true;
      if r.body.Fin? {
        remoteFin := true;
      } else if !r.body.Data? {
        ok := TakeControl(r.body, reader, derivable);
      }
    }

    /** The second half: under the read lock, records are taken up to the first item. A wait
        that got the lock before may have buffered something since; the item then overtakes
        it, and order is kept exactly when the two cannot be told apart. */
    method ReadLocked(records: seq<Record>, derivable: bool) returns (r: ReadOutcome, taken: nat)
      requires Valid()
      modifies this
      ensures Valid() && taken <= |records| && received == old(received) + records[..taken]
      ensures Reaches(old(View()), records, taken, Reading, derivable, View(), r.Failed?)
      ensures r.Waiting? ==> taken == |records|
      ensures Items(records[..taken]) == if r.Returned? then [r.data] else []
      ensures r.Returned? ==> taken > 0 && ItemsOf(records[taken - 1].body) == [r.data]
      ensures bufferedReads == old(bufferedReads) && returned == old(returned) + Items(records[..taken])
      ensures localFin == old(localFin) && resetDone == old(resetDone)
      ensures old(InSequence()) ==>
                (InSequence() <==> Items(records[..taken]) + bufferedReads == bufferedReads + Items(records[..taken]))
    {
      hide Distinct, Fresh, Conserved, InOrder, Admitted, ItemsOf, TakeAll, Items;
      r, taken := ReadUpToItem(records, derivable);
      if old(InSequence()) {
        OrderAfter(old(received), old(returned), old(bufferedReads), records[..taken], Items(records[..taken]));
      }
    }

    method ReadUpToItem(records: seq<Record>, derivable: bool) returns (r: ReadOutcome, taken: nat)
      requires Valid()
      modifies this
      ensures Valid() && taken <= |records| && received == old(received) + records[..taken]
      ensures Reaches(old(View()), records, taken, Reading, derivable, View(), r.Failed?)
      ensures r.Waiting? ==> taken == |records|
      ensures Items(records[..taken]) == if r.Returned? then [r.data] else []
      ensures r.Returned? ==> taken > 0 && ItemsOf(records[taken - 1].body) == [r.data]
      ensures bufferedReads == old(bufferedReads) && returned == old(returned) + Items(records[..taken])
      ensures localFin == old(localFin) && resetDone == old(resetDone)
    {
      hide Distinct, Fresh, Conserved, InOrder, Admitted, TakeRecord, TakeAll, PayAck, Items;
      taken := 0;
      NothingTaken(View(), records, Reading, derivable);
      while taken < |records|
        invariant Valid() && taken <= |records| && received == old(received) + records[..taken]
        invariant View() == TakeAll(old(View()), records[..taken], Reading, derivable)
        invariant Items(records[..taken]) == [] && returned == old(returned) && bufferedReads == old(bufferedReads)
        invariant localFin == old(localFin) && resetDone == old(resetDone)
      {
        var record := records[taken];
        TakeOneMore(old(received), records, taken);
        TakeOneMoreRecord(old(View()), records, taken, Reading, derivable);
        ItemsGrow(records, taken);
        ghost var before := View();
        var accepted, ok := TakeOne(record, Reading, derivable, false);
        if !accepted {
          return Failed, taken;
        }
        ItemsNeverBreak(before, record, Reading, derivable);
        taken := taken + 1;
        if !ok {
          return Failed, taken;
        }
        match record.body {
          case Data(payload) => return Returned(Some(payload)), taken;
          case Fin => return Returned(None), taken;
          case _ =>
        }
      }
      return Waiting, taken;
    }

    /** `read`, with nothing in between: the first `taken` of the arriving records are accepted,
        and data comes in the order in which it was sent. */
    method Read(records: seq<Record>, derivable: bool) returns (r: ReadOutcome, taken: nat)
      requires Valid()
      modifies this
      ensures Valid() && taken <= |records| && received == old(received) + records[..taken]
      ensures old(InSequence()) ==> InSequence()
      ensures returned == if r.Returned? then old(returned) + [r.data] else old(returned)
      ensures old(bufferedReads) != [] ==>
                && r == Returned(old(bufferedReads)[0]) && bufferedReads == old(bufferedReads)[1..]
                && taken == 0 && View() == old(View())
      ensures old(bufferedReads) == [] ==>
                && bufferedReads == [] && Items(records[..taken]) == (if r.Returned? then [r.data] else [])
                && Reaches(old(View()), records, taken, Reading, derivable, View(), r.Failed?)
      ensures r.Waiting? ==> taken == |records|
      ensures localFin == old(localFin) && resetDone == old(resetDone)
    {
      hide Distinct, Fresh, Conserved, InOrder, Items, Reaches;
      var first := PopBuffered();
      if first.Some? {
        assert old(bufferedReads)[1..] == bufferedReads;
        return Returned(first.value), 0;
      }
      r, taken := ReadLocked(records, derivable);
    }

    // The wait for the peer's update of this stream, made while adopting a session update.
    method AwaitUpdate(switch: Switch, records: seq<Record>, derivable: bool) returns (r: WaitOutcome, taken: nat)
      requires Valid()
      modifies this
      ensures Valid() && taken <= |records| && received == old(received) + records[..taken]
      ensures Reaches(old(View()), records, taken, AwaitingUpdate(switch), derivable, View(), r.Refused?)
      ensures returned == old(returned) && bufferedReads == old(bufferedReads) + Items(records[..taken])
      ensures localFin == old(localFin) && resetDone == old(resetDone)
      ensures old(InSequence()) ==> InSequence()
      ensures old(recvUpdate) == Some(switch) ==> r.Done? && taken == 0
      ensures r.Done? ==> recvUpdate == Some(switch) || (taken > 0 && records[taken - 1].body.Fin?)
      ensures r.StillWaiting? ==> taken == |records| && recvUpdate != Some(switch)
      ensures forall i :: 0 <= i < taken - 1 ==> records[i].body.Data?
    {
      hide Distinct, Fresh, Conserved, InOrder, Reaches, TakeAll, Items;
      r, taken := UpdateLoop(switch, records, derivable);
      ItemsJoin(old(received), records[..taken]);
    }

    method UpdateLoop(switch: Switch, records: seq<Record>, derivable: bool) returns (r: WaitOutcome, taken: nat)
      requires Valid()
      modifies this
      ensures Valid() && taken <= |records| && received == old(received) + records[..taken]
      ensures Reaches(old(View()), records, taken, AwaitingUpdate(switch), derivable, View(), r.Refused?)
      ensures returned == old(returned) && bufferedReads == old(bufferedReads) + Items(records[..taken])
      ensures localFin == old(localFin) && resetDone == old(resetDone)
      ensures old(recvUpdate) == Some(switch) ==> r.Done? && taken == 0
      ensures r.Done? ==> recvUpdate == Some(switch) || (taken > 0 && records[taken - 1].body.Fin?)
      ensures r.StillWaiting? ==> taken == |records| && recvUpdate != Some(switch)
      ensures forall i :: 0 <= i < taken - 1 ==> records[i].body.Data?
    {
      hide Distinct, Fresh, Conserved, InOrder, Admitted, TakeRecord, TakeAll, PayAck, Items;
      taken := 0;
      NothingTaken(View(), records, AwaitingUpdate(switch), derivable);
      while taken < |records| && recvUpdate != Some(switch)
        invariant Valid() && taken <= |records| && received == old(received) + records[..taken]
        invariant View() == TakeAll(old(View()), records[..taken], AwaitingUpdate(switch), derivable)
        invariant returned == old(returned) && bufferedReads == old(bufferedReads) + Items(records[..taken])
        invariant localFin == old(localFin) && resetDone == old(resetDone)
        invariant old(recvUpdate) == Some(switch) ==> taken == 0 && recvUpdate == Some(switch)
        invariant forall i :: 0 <= i < taken ==> records[i].body.Data?
      {
        var record := records[taken];
        TakeOneMore(old(received), records, taken);
        TakeOneMoreRecord(old(View()), records, taken, AwaitingUpdate(switch), derivable);
        ItemsGrow(records, taken);
        WaitContent(View(), record, switch, derivable);
        var accepted, ok := TakeOne(record, AwaitingUpdate(switch), derivable, true);
        if !accepted {
          return Refused, taken;
        }
        taken := taken + 1;
        if !ok {
          return Refused, taken;
        }
        if !record.body.Data? {
          return Done, taken;
        }
      }
      return if recvUpdate == Some(switch) then Done else StillWaiting, taken;
    }

    // The wait for the peer's acknowledgement of an update this side has sent.
    method AwaitAck(switch: Switch, records: seq<Record>, derivable: bool) returns (r: WaitOutcome, taken: nat)
      requires Valid()
      modifies this
      ensures Valid() && taken <= |records| && received == old(received) + records[..taken]
      ensures Reaches(old(View()), records, taken, Reading, derivable, View(), r.Refused?)
      ensures returned == old(returned) && bufferedReads == old(bufferedReads) + Items(records[..taken])
      ensures localFin == old(localFin) && resetDone == old(resetDone)
      ensures old(InSequence()) ==> InSequence()
      ensures r.Done? ==> sendUpdateAck == Some(switch)
      ensures r.StillWaiting? ==> taken == |records| && sendUpdateAck != Some(switch)
      ensures forall i :: 0 <= i < taken ==>
                TakeAll(old(View()), records[..i], Reading, derivable).sendUpdateAck != Some(switch)
    {
      hide Distinct, Fresh, Conserved, InOrder, Reaches, TakeAll, Items;
      r, taken := AckLoop(switch, records, derivable);
      ItemsJoin(old(received), records[..taken]);
    }

    method AckLoop(switch: Switch, records: seq<Record>, derivable: bool) returns (r: WaitOutcome, taken: nat)
      requires Valid()
      modifies this
      ensures Valid() && taken <= |records| && received == old(received) + records[..taken]
      ensures Reaches(old(View()), records, taken, Reading, derivable, View(), r.Refused?)
      ensures returned == old(returned) && bufferedReads == old(bufferedReads) + Items(records[..taken])
      ensures localFin == old(localFin) && resetDone == old(resetDone)
      ensures r.Done? ==> sendUpdateAck == Some(switch)
      ensures r.StillWaiting? ==> taken == |records| && sendUpdateAck != Some(switch)
      ensures forall i :: 0 <= i < taken ==>
                TakeAll(old(View()), records[..i], Reading, derivable).sendUpdateAck != Some(switch)
    {
      hide Distinct, Fresh, Conserved, InOrder, Admitted, TakeRecord, TakeAll, PayAck, Items;
      taken := 0;
      NothingTaken(View(), records, Reading, derivable);
      while taken < |records| && sendUpdateAck != Some(switch)
        invariant Valid() && taken <= |records| && received == old(received) + records[..taken]
        invariant View() == TakeAll(old(View()), records[..taken], Reading, derivable)
        invariant returned == old(returned) && bufferedReads == old(bufferedReads) + Items(records[..taken])
        invariant localFin == old(localFin) && resetDone == old(resetDone)
        invariant forall i :: 0 <= i < taken ==>
                    TakeAll(old(View()), records[..i], Reading, derivable).sendUpdateAck != Some(switch)
      {
        var record := records[taken];
        TakeOneMore(old(received), records, taken);
        TakeOneMoreRecord(old(View()), records, taken, Reading, derivable);
        ItemsGrow(records, taken);
        var accepted, ok := TakeOne(record, Reading, derivable, true);
        if !accepted {
          return Refused, taken;
        }
        taken := taken + 1;
        if !ok {
          return Refused, taken;
        }
      }
      return if sendUpdateAck == Some(switch) then Done else StillWaiting, taken;
    }
  }

  lemma OneData(e: End, r: Record, reader: Reader)
    requires e.owed.None? && !e.broken && r.body.Data? && r.stamp == e.place.next && r.stamp.sequence < U64_MAX
    ensures Admitted(e.place, r, reader.Reading?).Some? && Items([r]) == [Some(r.body.payload)]
    ensures TakeAll(e, [r], reader, true)
            == e.(place := e.place.(next := Label(r.stamp.epoch, r.stamp.sequence + 1)))
    ensures TakeAll(e, [], reader, true) == e && [r][..0] == []
  {
    assert [r][..0] == [];
    assert Items([r]) == Items([]) + ItemsOf(r.body);
  }

  /** A read that looked at the buffer before a wait filled it, and got the lock after: the
      later payload comes first. */
  method LateReadOvertakes(x: Bytes, y: Bytes) returns (s: EncryptedStream)
    requires x != y
    ensures fresh(s) && s.Valid() && !s.InSequence()
    ensures s.returned == [Some(y)] && s.bufferedReads == [Some(x)]
    ensures Items(s.received) == [Some(x), Some(y)]
  {
    hide Distinct, Fresh, Conserved, InOrder, Admitted, TakeAll, Items;
    s := new EncryptedStream(1, 0, 0);
    var first, second := Record(Label(0, 1), Data(x)), Record(Label(0, 2), Data(y));
    OneData(s.View(), first, AwaitingUpdate(Switch(1, 1)));
    var waited, one := s.AwaitUpdate(Switch(1, 1), [first], true);
    assert one == 1 && [first][..1] == [first];
    OneData(s.View(), second, Reading);
    var read, two := s.ReadLocked([second], true);
    assert two == 1 && [second][..1] == [second];
    ItemsJoin([first], [second]);
    assert s.received == [first] + [second];
    assert Items(s.received) == [Some(x), Some(y)];
    assert (s.returned + s.bufferedReads)[0] == Some(y);
  }
}
