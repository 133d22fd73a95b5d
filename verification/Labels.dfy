/** Record labels. Every control record and every datagram carries an epoch and a
    sequence number that together select its nonce, so no label may be assigned twice
    in a session, although the sequence numbers start over with each epoch. */
module Labels {
  import opened Basics

  datatype Label = Label(epoch: nat, sequence: nat)

  predicate Before(x: Label, y: Label) {
    x.epoch < y.epoch || (x.epoch == y.epoch && x.sequence < y.sequence)
  }

  ghost predicate Increasing(labels: seq<Label>) {
    forall i, j :: 0 <= i < j < |labels| ==> Before(labels[i], labels[j])
  }

  // Within one epoch the assigned sequence numbers are `first`, `first + 1`, … up to `next`.
  ghost predicate Assigned(labels: seq<Label>, epoch: nat, first: nat, next: nat) {
    && first <= next
    && (forall l <- labels :: l.epoch <= epoch)
    && forall n: nat :: Label(epoch, n) in labels <==> first <= n < next
  }

  lemma AppendIncreasing(labels: seq<Label>, l: Label)
    requires Increasing(labels)
    requires forall x <- labels :: Before(x, l)
    ensures Increasing(labels + [l])
  {}

  lemma NextIsLater(labels: seq<Label>, epoch: nat, first: nat, next: nat)
    requires Assigned(labels, epoch, first, next)
    ensures forall x <- labels :: Before(x, Label(epoch, next))
    ensures Assigned(labels + [Label(epoch, next)], epoch, first, next + 1)
  {}

  // A later epoch starts with nothing assigned.
  lemma NewEpochIsEmpty(labels: seq<Label>, epoch: nat, first: nat, next: nat, later: nat, start: nat)
    requires Assigned(labels, epoch, first, next) && epoch < later
    ensures Assigned(labels, later, start, start)
  {}

  /** What a session has used to label its outgoing control records and datagrams.
      The sequences of labels handed out are kept for the statements alone. */
  class SendLabels {
    var epoch: nat
    var controlNext: nat
    var datagramEpoch: nat
    var datagramNext: nat
    ghost var control: seq<Label>
    ghost var datagrams: seq<Label>

    ghost predicate Valid()
      reads this
    {
      && datagramEpoch <= epoch
      && Assigned(control, epoch, 0, controlNext)
      && Assigned(datagrams, datagramEpoch, 1, datagramNext)
      && Increasing(control)
      && Increasing(datagrams)
    }

    constructor ()
      ensures Valid() && epoch == 0 && control == [] && datagrams == []
    {
      epoch := 0;
      controlNext := 0;
      datagramEpoch := 0;
      datagramNext := 1;
      control := [];
      datagrams := [];
    }

    method LabelControl() returns (r: Option<Label>)
      requires Valid()
      modifies this
      ensures Valid() && epoch == old(epoch) && datagrams == old(datagrams)
      ensures r.Some? ==> control == old(control) + [r.value] && r.value !in old(control) && r.value.epoch == epoch
      ensures r.None? ==> control == old(control)
      ensures r.None? <==> Label(epoch, U64_MAX - 1) in old(control)
    {
      var sequence := controlNext;
      if sequence >= U64_MAX {
        return None;
      }
      assert sequence == U64_MAX - 1 ==> Label(epoch, U64_MAX - 1) !in control;
      controlNext := sequence + 1;
      NextIsLater(control, epoch, 0, sequence);
      AppendIncreasing(control, Label(epoch, sequence));
      control := control + [Label(epoch, sequence)];
      return Some(Label(epoch, sequence));
    }

    method LabelDatagram() returns (r: Option<Label>)
      requires Valid()
      modifies this
      ensures Valid() && epoch == old(epoch) && control == old(control)
      ensures r.Some? ==>
                datagrams == old(datagrams) + [r.value] && r.value !in old(datagrams) && r.value.epoch == epoch
      ensures r.None? ==> datagrams == old(datagrams)
      ensures r.None? <==> Label(epoch, U64_MAX - 1) in old(datagrams)
    {
      if datagramEpoch != epoch {
        NewEpochIsEmpty(datagrams, datagramEpoch, 1, datagramNext, epoch, 1);
        datagramEpoch := epoch;
        datagramNext := 1;
      }
      var sequence := datagramNext;
      if sequence >= U64_MAX {
        return None;
      }
      datagramNext := sequence + 1;
      NextIsLater(datagrams, epoch, 1, sequence);
      AppendIncreasing(datagrams, Label(epoch, sequence));
      datagrams := datagrams + [Label(epoch, sequence)];
      return Some(Label(epoch, sequence));
    }

    // The switch that follows the acknowledgement of a session key update.
    method SwitchEpoch()
      requires Valid()
      modifies this`epoch, this`controlNext
      ensures Valid() && epoch == old(epoch) + 1
    {
      NewEpochIsEmpty(control, epoch, 0, controlNext, epoch + 1, 0);
      epoch := epoch + 1;
      controlNext := 0;
    }
  }

  // What the reader of the control channel expects next.
  predicate Expected(l: Label, recvEpoch: nat, controlEpoch: nat, controlNext: nat) {
    || (l == Label(controlEpoch, controlNext) && controlNext < U64_MAX)
    || (l == Label(recvEpoch, 0) && recvEpoch == controlEpoch + 1)
  }

  class ControlReader {
    var recvEpoch: nat
    var controlEpoch: nat
    var controlNext: nat
    ghost var accepted: seq<Label>

    ghost predicate Valid()
      reads this
    {
      && recvEpoch <= U32_MAX
      && controlEpoch <= U32_MAX
      && Increasing(accepted)
      && Assigned(accepted, controlEpoch, 0, controlNext)
    }

    constructor ()
      ensures Valid() && accepted == []
    {
      recvEpoch := 0;
      controlEpoch := 0;
      controlNext := 0;
      accepted := [];
    }

    // Any authentic label may arrive here: lost, repeated or reordered.
    method Accept(l: Label) returns (r: bool)
      requires Valid()
      modifies this`controlEpoch, this`controlNext, this`accepted
      ensures Valid()
      ensures r <==> Expected(l, recvEpoch, old(controlEpoch), old(controlNext))
      ensures accepted == if r then old(accepted) + [l] else old(accepted)
      ensures r ==> forall x <- old(accepted) :: Before(x, l)
    {
      var bumped := if controlEpoch == U32_MAX then U32_MAX else controlEpoch + 1;
      if l.epoch == controlEpoch {
        if l.sequence != controlNext || controlNext >= U64_MAX {
          return false;
        }
        controlNext := controlNext + 1;
      } else if l.epoch == recvEpoch && l.epoch == bumped && l.sequence == 0 {
        NewEpochIsEmpty(accepted, controlEpoch, 0, controlNext, l.epoch, 0);
        controlEpoch := l.epoch;
        controlNext := 1;
      } else {
        return false;
      }
      NextIsLater(accepted, controlEpoch, 0, controlNext - 1);
      AppendIncreasing(accepted, l);
      accepted := accepted + [l];
      return true;
    }

    method Adopt(epoch: nat)
      requires Valid() && epoch <= U32_MAX
      modifies this`recvEpoch
      ensures Valid() && recvEpoch == epoch
    {
      recvEpoch := epoch;
    }
  }
}
