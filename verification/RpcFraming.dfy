/** RPC frames on a byte stream: a four-byte length and that many bytes of JSON. The
    stream delivers them in chunks of its own choosing and accepts writes piecemeal. */
module RpcFraming {
  import opened Basics
  import opened ByteStrings
  import opened Wire
  import opened WireLayouts

  const MAX_FRAME: nat := 1_048_576

  function Frame(payload: Bytes): Bytes
    requires |payload| <= MAX_FRAME
  {
    Write32(|payload|) + payload
  }

  /** Four bytes of length, most significant first, and the payload. */
  lemma FrameLayout(payload: Bytes)
    requires |payload| <= 1_048_576
    ensures |Frame(payload)| == 4 + |payload|
    ensures DigitsAt(Frame(payload), 0, 4, |payload|) && Frame(payload)[4..] == payload
  {
    hide Write32, DigitsAt;
    Digits32(|payload|);
    Placed([], Write32(|payload|), payload, |payload|);
    assert [] + Write32(|payload|) + payload == Frame(payload);
  }

  ghost predicate AllFit(payloads: seq<Bytes>) {
    forall p <- payloads :: |p| <= 1_048_576
  }

  ghost function Frames(payloads: seq<Bytes>): Bytes
    requires AllFit(payloads)
  {
    if payloads == [] then [] else Frame(payloads[0]) + Frames(payloads[1..])
  }

  ghost function Flatten(chunks: seq<Bytes>): Bytes {
    if chunks == [] then [] else chunks[0] + Flatten(chunks[1..])
  }

  datatype Split = Split(payload: Bytes, rest: Bytes)

  // The first frame of a byte string, if all of it is there.
  ghost function FirstFrame(unread: Bytes): Option<Split> {
    if |unread| < 4 then None
    else
      var length := Read32(unread[..4]);
      if length > 1_048_576 || |unread| < 4 + length then None
      else Some(Split(unread[4..4 + length], unread[4 + length..]))
  }

  // What reading frames one after another yields, and what is left.
  ghost function ReadFrames(unread: Bytes, count: nat): Option<(seq<Bytes>, Bytes)> {
    if count == 0 then Some(([], unread))
    else
      var first := FirstFrame(unread);
      if first.None? then None
      else
        var more := ReadFrames(first.value.rest, count - 1);
        if more.None? then None else Some(([first.value.payload] + more.value.0, more.value.1))
  }

  lemma FrameReadsBack(payload: Bytes, rest: Bytes)
    requires |payload| <= MAX_FRAME
    ensures FirstFrame(Frame(payload) + rest) == Some(Split(payload, rest))
  {
    hide Write32, Read32;
    var unread := Frame(payload) + rest;
    assert unread[..4] == Write32(|payload|);
    assert unread[4..4 + |payload|] == payload;
    assert unread[4 + |payload|..] == rest;
    Read32Back(|payload|);
  }

  /** Reading undoes framing: the frames come back in order, and what follows them is left. */
  lemma {:induction false} FramesReadBack(payloads: seq<Bytes>, rest: Bytes)
    requires AllFit(payloads)
    ensures ReadFrames(Frames(payloads) + rest, |payloads|) == Some((payloads, rest))
    decreases |payloads|
  {
    hide FirstFrame, Frame;
    if payloads == [] {
      assert Frames(payloads) + rest == rest;
    } else {
      var head, tail := payloads[0], payloads[1..];
      assert head in payloads && AllFit(tail);
      assert Frames(payloads) == Frame(head) + Frames(tail);
      FramesReadBack(tail, rest);
      hide Frames, AllFit;
      assert Frame(head) + Frames(tail) + rest == Frame(head) + (Frames(tail) + rest);
      FrameReadsBack(head, Frames(tail) + rest);
      assert payloads == [head] + tail;
    }
  }

  // Reading one frame more.
  lemma {:induction false} OneFrameMore(unread: Bytes, count: nat)
    ensures ReadFrames(unread, count).None? ==> ReadFrames(unread, count + 1).None?
    ensures ReadFrames(unread, count).Some? ==>
              var sofar := ReadFrames(unread, count).value;
              var next := FirstFrame(sofar.1);
              ReadFrames(unread, count + 1) ==
              if next.None? then None else Some((sofar.0 + [next.value.payload], next.value.rest))
    decreases count
  {
    hide FirstFrame;
    if count == 0 {
      assert ReadFrames(unread, 0) == Some(([], unread));
      if FirstFrame(unread).Some? {
        var first := FirstFrame(unread).value;
        assert ReadFrames(first.rest, 0) == Some(([], first.rest));
        assert [first.payload] + [] == [] + [first.payload] == [first.payload];
        assert ReadFrames(unread, 1) == Some(([first.payload], first.rest));
      }
    } else if FirstFrame(unread).Some? {
      var first := FirstFrame(unread).value;
      OneFrameMore(first.rest, count - 1);
      if ReadFrames(first.rest, count - 1).Some? {
        var sofar := ReadFrames(first.rest, count - 1).value;
        assert ReadFrames(unread, count) == Some(([first.payload] + sofar.0, sofar.1));
        if FirstFrame(sofar.1).Some? {
          var next := FirstFrame(sofar.1).value;
          assert [first.payload] + (sofar.0 + [next.payload]) == [first.payload] + sofar.0 + [next.payload];
        }
      }
    }
  }

  // A reader that fails on an early frame gets no later one.
  lemma {:induction false} NoFrameMore(unread: Bytes, count: nat, more: nat)
    requires count <= more && ReadFrames(unread, count).None?
    ensures ReadFrames(unread, more).None?
    decreases more
  {
    hide ReadFrames;
    if count < more {
      NoFrameMore(unread, count, more - 1);
      OneFrameMore(unread, more - 1);
    }
  }

  /** The reading side: bytes already received, and the chunks the stream has still to
      deliver before it ends. */
  class FrameReader {
    var buffer: Bytes
    var chunks: seq<Bytes>

    ghost function Unread(): Bytes
      reads this
    {
      buffer + Flatten(chunks)
    }

    constructor (chunks: seq<Bytes>)
      ensures Unread() == Flatten(chunks)
    {
      this.buffer := [];
      this.chunks := chunks;
    }

    method Fill(needed: nat) returns (ok: bool)
      modifies this
      ensures Unread() == old(Unread())
      ensures ok <==> needed <= |old(Unread())|
      ensures ok ==> needed <= |buffer|
    {
      while |buffer| < needed
        invariant Unread() == old(Unread())
        decreases |chunks|
      {
        if chunks == [] {
          assert Unread() == buffer;
          return false;
        }
        var chunk := chunks[0];
        assert buffer + (chunk + Flatten(chunks[1..])) == buffer + chunk + Flatten(chunks[1..]);
        chunks := chunks[1..];
        buffer := buffer + chunk;
      }
      return true;
    }

    // The result depends on the unread bytes alone, never on how they were cut.
    method ReadFrame() returns (r: Option<Bytes>)
      modifies this
      ensures r.Some? <==> FirstFrame(old(Unread())).Some?
      ensures r.Some? ==> FirstFrame(old(Unread())) == Some(Split(r.value, Unread()))
    {
      hide Read32;
      var ok := Fill(4);
      if !ok {
        return None;
      }
      ghost var unread := Unread();
      var length := Read32(buffer[..4]);
      assert unread[..4] == buffer[..4];
      DropPrefix(buffer, Flatten(chunks), 4);
      buffer := buffer[4..];
      assert Unread() == unread[4..];
      if length > MAX_FRAME {
        return None;
      }
      ok := Fill(length);
      if !ok {
        return None;
      }
      var payload := buffer[..length];
      assert payload == unread[4..4 + length] by {
        assert payload == Unread()[..length];
      }
      DropPrefix(buffer, Flatten(chunks), length);
      buffer := buffer[length..];
      assert Unread() == unread[4 + length..];
      return Some(payload);
    }

    /** The serve loop's reads. However the stream cuts the bytes of a list of frames, with
        anything after them, the frames come back in order and exactly the rest is left. */
    method ReadAll(count: nat) returns (r: Option<seq<Bytes>>)
      modifies this
      ensures r.Some? <==> ReadFrames(old(Unread()), count).Some?
      ensures r.Some? ==> ReadFrames(old(Unread()), count) == Some((r.value, Unread()))
      ensures forall payloads: seq<Bytes>, rest: Bytes ::
                AllFit(payloads) && |payloads| == count && old(Unread()) == Frames(payloads) + rest ==>
                r == Some(payloads) && Unread() == rest
    {
      hide FirstFrame, Frames, Flatten, ReadFrames;
      ghost var unread := Unread();
      forall payloads: seq<Bytes>, rest: Bytes |
        AllFit(payloads) && |payloads| == count && unread == Frames(payloads) + rest
        ensures ReadFrames(unread, count) == Some((payloads, rest))
      {
        FramesReadBack(payloads, rest);
      }
      var frames: seq<Bytes> := [];
      assert ReadFrames(unread, 0) == Some(([], unread)) by { NothingRead(unread); }
      var i := 0;
      while i < count
        invariant 0 <= i <= count
        invariant ReadFrames(unread, i) == Some((frames, Unread()))
      {
        OneFrameMore(unread, i);
        var frame := ReadFrame();
        if frame.None? {
          NoFrameMore(unread, i + 1, count);
          return None;
        }
        frames := frames + [frame.value];
        i := i + 1;
      }
      return Some(frames);
    }
  }

  lemma NothingRead(unread: Bytes)
    ensures ReadFrames(unread, 0) == Some(([], unread))
  {
  }

  lemma DropPrefix(a: Bytes, b: Bytes, n: nat)
    requires n <= |a|
    ensures a[n..] + b == (a + b)[n..]
  {}

  datatype WriteOutcome = Written | WriteFailed | WriteWaiting

  ghost function Total(accepted: seq<nat>): nat {
    if accepted == [] then 0 else Total(accepted[..|accepted| - 1]) + accepted[|accepted| - 1]
  }

  // The first `writes` answers each took something and together took less than `size`.
  ghost predicate TakesPart(accepted: seq<nat>, writes: nat, size: nat) {
    && writes <= |accepted| && Total(accepted[..writes]) < size
    && forall i :: 0 <= i < writes ==> accepted[i] > 0
  }

  lemma NextTotal(accepted: seq<nat>, i: nat)
    requires i < |accepted|
    ensures Total(accepted[..i + 1]) == Total(accepted[..i]) + accepted[i]
  {
    assert accepted[..i + 1][..i] == accepted[..i];
  }

  /** The write loop. `accepted` holds what the stream answers to each write in turn;
      an answer of zero, or of more than was offered, is an error. */
  method WriteFrame(payload: Bytes, accepted: seq<nat>) returns (r: WriteOutcome, sent: Bytes, writes: nat)
    ensures |payload| > 1_048_576 ==> r.WriteFailed? && sent == [] && writes == 0
    ensures |payload| <= 1_048_576 ==> sent <= Frame(payload) && writes <= |accepted|
    ensures r.Written? ==>
              && |payload| <= 1_048_576 && sent == Frame(payload)
              && writes > 0 && TakesPart(accepted, writes - 1, |sent|) && Total(accepted[..writes]) == |sent|
    ensures r.WriteWaiting? ==>
              && |payload| <= 1_048_576 && writes == |accepted|
              && TakesPart(accepted, writes, |Frame(payload)|) && |sent| == Total(accepted)
    ensures r.WriteFailed? && |payload| <= 1_048_576 ==>
              && writes > 0 && TakesPart(accepted, writes - 1, |Frame(payload)|)
              && |sent| == Total(accepted[..writes - 1])
              && (accepted[writes - 1] == 0 || |sent| + accepted[writes - 1] > |Frame(payload)|)
  {
    hide Total;
    sent, writes := [], 0;
    if |payload| > MAX_FRAME {
      return WriteFailed, sent, writes;
    }
    var raw := Frame(payload);
    var remaining := raw;
    NothingTotal(accepted);
    while remaining != []
      invariant sent + remaining == raw && writes <= |accepted| && |sent| == Total(accepted[..writes])
      invariant remaining != [] ==> TakesPart(accepted, writes, |raw|)
      invariant remaining == [] ==> writes > 0 && TakesPart(accepted, writes - 1, |raw|)
      decreases |remaining|
    {
      if writes == |accepted| {
        assert accepted[..writes] == accepted;
        return WriteWaiting, sent, writes;
      }
      var written := accepted[writes];
      NextTotal(accepted, writes);
      writes := writes + 1;
      if written == 0 || written > |remaining| {
        return WriteFailed, sent, writes;
      }
      assert sent + remaining[..written] + remaining[written..] == sent + remaining;
      sent := sent + remaining[..written];
      remaining := remaining[written..];
    }
    return Written, sent, writes;
  }

  lemma NothingTotal(accepted: seq<nat>)
    ensures Total(accepted[..0]) == 0
  {}
}
