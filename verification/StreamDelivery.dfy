/** What an in-order carrier delivers of a stream. The writer's log is any that
    `EncryptedStream` keeps; any of the three readers may take each record, and handles every
    update it accepts. */
module StreamDelivery {
  import opened Basics
  import opened ByteStrings
  import opened Labels
  import opened StreamRecords

  /** One record, taken by a reader that accepts acknowledgements or, `oneShot` being false,
      by the wait for the peer's update, which does not. */
  function ReadOne(p: Position, r: Record, oneShot: bool): Option<Position> {
    if r.body.KeyUpdateAck? && !oneShot then None
    else
      var q := Admitted(p, r, oneShot);
      if q.Some? && r.body.KeyUpdate? then Some(Updated(q.value)) else q
  }

  /** A whole log; `readers[i]` tells which kind of reader takes record `i`. */
  ghost function ReadAll(p: Position, log: seq<Record>, readers: seq<bool>): Option<Position>
    requires |readers| == |log|
  {
    if log == [] then Some(p)
    else
      var n := |log| - 1;
      var q := ReadAll(p, log[..n], readers[..n]);
      if q.None? then None else ReadOne(q.value, log[n], readers[n])
  }

  // Every acknowledgement meets a reader that accepts it.
  ghost predicate AcksTaken(log: seq<Record>, readers: seq<bool>)
    requires |readers| == |log|
  {
    forall i :: 0 <= i < |log| && log[i].body.KeyUpdateAck? ==> readers[i]
  }

  // After an update nothing more is sent in its epoch, except one acknowledgement right behind it.
  ghost predicate Quiet(log: seq<Record>) {
    forall i, j :: 0 <= i < j < |log| && log[i].body.KeyUpdate? && log[j].stamp.epoch == log[i].stamp.epoch ==>
                   j == i + 1 && log[j].body.KeyUpdateAck?
  }

  ghost predicate UpdatedIn(log: seq<Record>, epoch: nat) {
    exists i :: 0 <= i < |log| && log[i].body.KeyUpdate? && log[i].stamp.epoch == epoch
  }

  ghost predicate EndsInUpdate(log: seq<Record>) {
    log != [] && log[|log| - 1].body.KeyUpdate?
  }

  lemma {:induction false} LogFacts(start: Pen, log: seq<Record>)
    requires !start.updated && PenAfter(start, log).Some?
    ensures var w := PenAfter(start, log).value;
            && (w.updated <==> UpdatedIn(log, w.next.epoch))
            && forall r <- log :: r.stamp.epoch <= w.next.epoch
    ensures EndsInUpdate(log) ==> !UpdatedIn(log[..|log| - 1], log[|log| - 1].stamp.epoch)
    decreases |log|
  {
    if log != [] {
      var n := |log| - 1;
      var front, last := log[..n], log[n];
      LogFacts(start, front);
      var w0, w := PenAfter(start, front).value, PenAfter(start, log).value;
      assert forall i :: 0 <= i < n ==> front[i] == log[i];
      if UpdatedIn(front, w.next.epoch) {
        var i :| 0 <= i < n && front[i].body.KeyUpdate? && front[i].stamp.epoch == w.next.epoch;
        assert log[i].body.KeyUpdate?;
      }
      assert w.updated <==> last.body.KeyUpdate? || UpdatedIn(front, w.next.epoch) by {
        assert last.stamp.epoch != w0.next.epoch ==> !UpdatedIn(front, last.stamp.epoch);
      }
    }
  }

  // Where the reader stands after everything the writer has sent.
  ghost predicate Level(w: Pen, p: Position, log: seq<Record>) {
    if !w.updated then
      p.next == w.next && (p.prior.Some? ==> p.prior.value.epoch < w.next.epoch)
    else
      p.next == Label(w.next.epoch + 1, 0) && p.prior == if EndsInUpdate(log) then Some(w.next) else None
  }

  lemma {:induction false} ReaderKeepsLevel(start: Pen, log: seq<Record>, readers: seq<bool>)
    requires |readers| == |log| && !start.updated
    requires PenAfter(start, log).Some? && ReadAll(Position(start.next, None), log, readers).Some?
    ensures Level(PenAfter(start, log).value, ReadAll(Position(start.next, None), log, readers).value, log)
    decreases |log|
  {
    if log != [] {
      var n := |log| - 1;
      ReaderKeepsLevel(start, log[..n], readers[..n]);
    }
  }

  lemma NextRead(w: Pen, p: Position, log: seq<Record>, r: Record, oneShot: bool)
    requires Level(w, p, log) && Follows(w, r) && r.stamp.sequence < U64_MAX
    ensures ReadOne(p, r, oneShot).Some? <==>
            && (!(w.updated && r.stamp.epoch == w.next.epoch) || (EndsInUpdate(log) && r.body.KeyUpdateAck?))
            && (r.body.KeyUpdateAck? ==> oneShot)
  {}

  lemma QuietGrows(log: seq<Record>, r: Record)
    ensures Quiet(log + [r]) <==>
            && Quiet(log)
            && (UpdatedIn(log, r.stamp.epoch) ==>
                  EndsInUpdate(log) && !UpdatedIn(log[..|log| - 1], r.stamp.epoch) && r.body.KeyUpdateAck?)
  {
    var all := log + [r];
    assert forall i :: 0 <= i < |log| ==> all[i] == log[i];
    assert all[|log|] == r;
    if Quiet(all) {
      assert forall i, j :: 0 <= i < j < |log| ==> all[i] == log[i] && all[j] == log[j];
      if UpdatedIn(log, r.stamp.epoch) {
        var i :| 0 <= i < |log| && log[i].body.KeyUpdate? && log[i].stamp.epoch == r.stamp.epoch;
        assert all[i].body.KeyUpdate? && all[|log|].stamp.epoch == all[i].stamp.epoch;
      }
    }
  }

  lemma AcksTakenGrows(log: seq<Record>, readers: seq<bool>)
    requires |readers| == |log| && log != []
    ensures var n := |log| - 1;
            AcksTaken(log, readers) <==>
            AcksTaken(log[..n], readers[..n]) && (log[n].body.KeyUpdateAck? ==> readers[n])
  {
    var n := |log| - 1;
    assert forall i :: 0 <= i < n ==> log[..n][i] == log[i] && readers[..n][i] == readers[i];
  }

  /** Everything a writer has sent is accepted, in order and by whichever readers, if and only
      if the writer kept quiet behind each of its updates and no acknowledgement came to the
      wait for the peer's update. */
  lemma {:induction false} AcceptedExactlyWhenQuiet(start: Pen, log: seq<Record>, readers: seq<bool>)
    requires |readers| == |log| && !start.updated && PenAfter(start, log).Some?
    requires forall r <- log :: r.stamp.sequence < U64_MAX
    ensures ReadAll(Position(start.next, None), log, readers).Some? <==> Quiet(log) && AcksTaken(log, readers)
    decreases |log|
  {
    if log != [] {
      var n := |log| - 1;
      var front, last := log[..n], log[n];
      assert log == front + [last];
      AcceptedExactlyWhenQuiet(start, front, readers[..n]);
      QuietGrows(front, last);
      AcksTakenGrows(log, readers);
      LogFacts(start, front);
      hide Quiet, AcksTaken;
      if ReadAll(Position(start.next, None), front, readers[..n]).Some? {
        ReaderKeepsLevel(start, front, readers[..n]);
        var p := ReadAll(Position(start.next, None), front, readers[..n]).value;
        NextRead(PenAfter(start, front).value, p, front, last, readers[n]);
      }
    }
  }

  // A writer may send data behind an update, and every reader refuses it.
  lemma DataBehindUpdateIsRefused(epoch: nat, sequence: nat, payload: Bytes, readers: seq<bool>)
    requires sequence + 1 < U64_MAX && |readers| == 2
    ensures var start := Pen(Label(epoch, sequence), false);
            var log := [Record(start.next, KeyUpdate(Some(Switch(epoch + 1, epoch + 1)))),
                        Record(Label(epoch, sequence + 1), Data(payload))];
            PenAfter(start, log).Some? && ReadAll(Position(start.next, None), log, readers).None?
  {
    var start := Pen(Label(epoch, sequence), false);
    var update := Record(start.next, KeyUpdate(Some(Switch(epoch + 1, epoch + 1))));
    var data := Record(Label(epoch, sequence + 1), Data(payload));
    var log := [update, data];
    TwoRecords(start, update, data);
    assert log[0].body.KeyUpdate? && log[1].stamp.epoch == log[0].stamp.epoch;
    AcceptedExactlyWhenQuiet(start, log, readers);
  }

  // An acknowledgement followed by the writer's own update, as crossing rekeys send them, is
  // quiet. The wait for the peer's update refuses it.
  lemma CrossingAckIsRefused(id: nat, acked: Switch, epoch: nat, sequence: nat)
    requires sequence + 1 < U64_MAX
    ensures var start := Pen(Label(epoch, sequence), false);
            var log := [Record(start.next, KeyUpdateAck(id, Some(acked))),
                        Record(Label(epoch, sequence + 1), KeyUpdate(Some(Switch(epoch + 1, epoch + 1))))];
            && PenAfter(start, log).Some? && Quiet(log)
            && ReadAll(Position(start.next, None), log, [true, false]).Some?
            && ReadAll(Position(start.next, None), log, [false, false]).None?
  {
    var start := Pen(Label(epoch, sequence), false);
    var ack := Record(start.next, KeyUpdateAck(id, Some(acked)));
    var update := Record(Label(epoch, sequence + 1), KeyUpdate(Some(Switch(epoch + 1, epoch + 1))));
    TwoRecords(start, ack, update);
    AcceptedExactlyWhenQuiet(start, [ack, update], [true, false]);
    AcceptedExactlyWhenQuiet(start, [ack, update], [false, false]);
    assert [ack, update][0].body.KeyUpdateAck?;
  }

  lemma TwoRecords(start: Pen, first: Record, second: Record)
    requires Follows(start, first) && Follows(After(start, first), second)
    ensures PenAfter(start, [first, second]).Some?
  {
    LogGrows(start, [], first);
    LogGrows(start, [first], second);
    assert [] + [first] == [first] && [first] + [second] == [first, second];
  }
}
