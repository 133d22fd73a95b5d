/** Receiving encrypted datagrams. The carrier may lose, repeat and reorder them; the
    receive loop keeps one replay window for each epoch. */
module Datagrams {
  import opened Basics
  import opened ByteStrings
  import opened Labels
  import opened ReplayWindows

  const MAX_WIRE_SIZE: nat := DATAGRAM_HEADER_SIZE + MAX_DATAGRAM + TAG_SIZE

  datatype Header = Header(stamp: Label, expiresAt: nat, ciphertextLength: nat)

  /** One datagram as the carrier hands it over, with what decoding and opening it
      yield and the clock readings made on the way. */
  datatype Arrival = Arrival(length: nat, header: Option<Header>, checkedAt: nat,
                             rootsHeld: bool, plaintext: Option<Bytes>, openedAt: nat)

  predicate WellFormed(x: Arrival) {
    && DATAGRAM_HEADER_SIZE + TAG_SIZE + 1 <= x.length <= MAX_WIRE_SIZE
    && x.header.Some?
    && x.length == DATAGRAM_HEADER_SIZE + x.header.value.ciphertextLength
    && x.checkedAt < x.header.value.expiresAt
  }

  predicate Opens(x: Arrival)
    requires x.header.Some?
  {
    x.rootsHeld && x.plaintext.Some? && x.openedAt < x.header.value.expiresAt
  }

  ghost function Sequences(delivered: set<Label>, epoch: nat): set<nat> {
    set l | l in delivered && l.epoch == epoch :: l.sequence
  }

  // Delivered before, or 128 or more behind a datagram of its epoch that was.
  ghost predicate Replayed(delivered: set<Label>, l: Label) {
    Refused(Sequences(delivered, l.epoch), l.sequence)
  }

  ghost predicate Delivers(x: Arrival, delivered: set<Label>) {
    WellFormed(x) && !Replayed(delivered, x.header.value.stamp) && Opens(x)
  }

  // ----- Whole runs -----------------------------------------------------------------

  // The labels delivered, in order, when these datagrams arrive.
  ghost function Deliveries(arrivals: seq<Arrival>, delivered: set<Label>): seq<Label> {
    if arrivals == [] then []
    else if Delivers(arrivals[0], delivered) then
      var l := arrivals[0].header.value.stamp;
      [l] + Deliveries(arrivals[1..], delivered + {l})
    else Deliveries(arrivals[1..], delivered)
  }

  ghost function Elements(labels: seq<Label>): set<Label> {
    set l | l in labels
  }

  lemma InSequences(delivered: set<Label>, l: Label)
    ensures l.sequence in Sequences(delivered, l.epoch) <==> l in delivered
  {}

  // However the carrier repeats and reorders, no label is delivered twice.
  lemma {:induction false} DeliveredAtMostOnce(arrivals: seq<Arrival>, delivered: set<Label>)
    ensures forall i, j :: 0 <= i < j < |Deliveries(arrivals, delivered)| ==>
              Deliveries(arrivals, delivered)[i] != Deliveries(arrivals, delivered)[j]
    ensures forall l <- Deliveries(arrivals, delivered) :: l !in delivered
    decreases |arrivals|
  {
    if arrivals != [] {
      if Delivers(arrivals[0], delivered) {
        var l := arrivals[0].header.value.stamp;
        InSequences(delivered, l);
        DeliveredAtMostOnce(arrivals[1..], delivered + {l});
        var rest := Deliveries(arrivals[1..], delivered + {l});
        assert Deliveries(arrivals, delivered) == [l] + rest;
        forall x | x in Deliveries(arrivals, delivered)
          ensures x !in delivered
        {
          assert x == l || x in rest;
        }
        assert l !in rest;
      } else {
        DeliveredAtMostOnce(arrivals[1..], delivered);
      }
    }
  }

  lemma {:induction false} DeliveriesSplit(before: seq<Arrival>, after: seq<Arrival>, delivered: set<Label>)
    ensures Deliveries(before + after, delivered)
            == Deliveries(before, delivered)
               + Deliveries(after, delivered + Elements(Deliveries(before, delivered)))
    decreases |before|
  {
    var first := Deliveries(before, delivered);
    if before == [] {
      assert before + after == after;
      assert delivered + Elements(first) == delivered;
    } else {
      assert (before + after)[1..] == before[1..] + after;
      if Delivers(before[0], delivered) {
        var l := before[0].header.value.stamp;
        DeliveriesSplit(before[1..], after, delivered + {l});
        var rest := Deliveries(before[1..], delivered + {l});
        assert first == [l] + rest;
        assert delivered + {l} + Elements(rest) == delivered + Elements(first);
      } else {
        DeliveriesSplit(before[1..], after, delivered);
      }
    }
  }

  /** Whether one datagram is delivered depends on nothing but itself, whether its label
      was delivered before, and whether the epoch has moved 128 or more past it: an
      authentic, unexpired, unseen datagram inside the window is always delivered. */
  lemma DeliveredExactlyWhenNew(before: seq<Arrival>, x: Arrival)
    ensures var past := Elements(Deliveries(before, {}));
            Deliveries(before + [x], {})
            == Deliveries(before, {})
               + (if && 49 <= x.length <= 1024
                     && x.header.Some? && x.length == 32 + x.header.value.ciphertextLength
                     && x.checkedAt < x.header.value.expiresAt && x.openedAt < x.header.value.expiresAt
                     && x.rootsHeld && x.plaintext.Some?
                     && x.header.value.stamp !in past
                     && (forall l <- past :: l.epoch == x.header.value.stamp.epoch ==>
                                             l.sequence < x.header.value.stamp.sequence + WIDTH)
                  then [x.header.value.stamp] else [])
  {
    var past := Elements(Deliveries(before, {}));
    DeliveriesSplit(before, [x], {});
    assert {} + past == past;
    if WellFormed(x) {
      var stamp := x.header.value.stamp;
      InSequences(past, stamp);
      var sequences := Sequences(past, stamp.epoch);
      assert (forall l <- past :: l.epoch == stamp.epoch ==> l.sequence < stamp.sequence + WIDTH)
        <==> (forall h <- sequences :: h < stamp.sequence + WIDTH) by {
        forall l | l in past && l.epoch == stamp.epoch
          ensures l.sequence in sequences
        {}
      }
      assert (forall h <- sequences :: h < stamp.sequence + WIDTH)
        <==> !(exists h <- sequences :: h >= stamp.sequence + WIDTH);
    }
  }

  // ----- The receive loop -----------------------------------------------------------

  class Receiver {
    var replay: map<nat, ReplayWindow>
    ghost var delivered: set<Label>

    ghost predicate Valid()
      reads this, replay.Values
    {
      && (forall e, f <- replay :: e != f && e in replay ==> replay[e] != replay[f])
      && (forall e <- replay :: replay[e].Records(Sequences(delivered, e)))
      && (forall l <- delivered :: l.epoch in replay)
    }

    constructor ()
      ensures Valid() && delivered == {}
    {
      replay := map[];
      delivered := {};
    }

    method Seen(l: Label) returns (r: bool)
      requires Valid()
      ensures r <==> Replayed(delivered, l)
    {
      if l.epoch in replay {
        r := replay[l.epoch].Contains(l.sequence, Sequences(delivered, l.epoch));
      } else {
        assert Sequences(delivered, l.epoch) == {};
        r := false;
      }
    }

    method Record(l: Label)
      requires Valid()
      modifies this, replay.Values
      ensures Valid() && delivered == old(delivered) + {l}
      ensures fresh(replay.Values - old(replay.Values))
    {
      if l.epoch !in replay {
        var window := new ReplayWindow();
        assert Sequences(delivered, l.epoch) == {};
        replay := replay[l.epoch := window];
      }
      var window := replay[l.epoch];
      window.Insert(l.sequence, Sequences(delivered, l.epoch));
      ghost var before := delivered;
      delivered := delivered + {l};
      assert Sequences(delivered, l.epoch) == Sequences(before, l.epoch) + {l.sequence};
      assert forall e | e != l.epoch :: Sequences(delivered, e) == Sequences(before, e);
    }

    /** One call of `receive`: `taken` datagrams are dropped before the one delivered,
        or all of them when none can be. */
    method Receive(arrivals: seq<Arrival>) returns (r: Option<Bytes>, taken: nat)
      requires Valid()
      modifies this, replay.Values
      ensures Valid() && taken <= |arrivals|
      ensures fresh(replay.Values - old(replay.Values))
      ensures forall i :: 0 <= i < taken ==> !Delivers(arrivals[i], old(delivered))
      ensures r.None? <==> taken == |arrivals|
      ensures r.None? ==> delivered == old(delivered)
      ensures r.Some? ==>
                && Delivers(arrivals[taken], old(delivered))
                && r == arrivals[taken].plaintext
                && arrivals[taken].checkedAt < arrivals[taken].header.value.expiresAt
                && arrivals[taken].openedAt < arrivals[taken].header.value.expiresAt
                && arrivals[taken].header.value.stamp !in old(delivered)
                && delivered == old(delivered) + {arrivals[taken].header.value.stamp}
      ensures Deliveries(arrivals, old(delivered))
              == if r.None? then []
                 else [arrivals[taken].header.value.stamp] + Deliveries(arrivals[taken + 1..], delivered)
    {
      taken := 0;
      while taken < |arrivals|
        invariant Valid() && delivered == old(delivered) && replay == old(replay) && taken <= |arrivals|
        invariant forall i :: 0 <= i < taken ==> !Delivers(arrivals[i], delivered)
        invariant Deliveries(arrivals, delivered) == Deliveries(arrivals[taken..], delivered)
      {
        var x := arrivals[taken];
        assert arrivals[taken..][1..] == arrivals[taken + 1..];
        if WellFormed(x) {
          var replayed := Seen(x.header.value.stamp);
          if !replayed && Opens(x) {
            InSequences(delivered, x.header.value.stamp);
            Record(x.header.value.stamp);
            return x.plaintext, taken;
          }
        }
        taken := taken + 1;
      }
      return None, taken;
    }
  }
}
