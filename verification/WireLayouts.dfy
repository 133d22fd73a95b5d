/** The wire formats byte by byte: which values can be encoded, and what each byte of the
    encoding is. Integers are most significant byte first. */
module WireLayouts {
  import opened Basics
  import opened ByteStrings
  import opened Ledgers
  import opened Wire

  // The last digits of `x` to base 256.
  ghost predicate Digits(raw: Bytes, x: nat) {
    forall i :: 0 <= i < |raw| ==> raw[i] == x / Power256(|raw| - 1 - i) % 256
  }

  // They are the `width` bytes from `at` on.
  ghost predicate DigitsAt(raw: Bytes, at: nat, width: nat, x: nat) {
    at + width <= |raw| && Digits(raw[at..at + width], x)
  }

  lemma DivideTwice(x: nat, p: nat)
    requires p > 0
    ensures x / 256 / p == x / (256 * p)
  {
    var q, r := x / 256, x % 256;
    var a, b := q / p, q % p;
    assert x == 256 * (a * p + b) + r;
    assert x == a * (256 * p) + (256 * b + r);
    assert 0 <= 256 * b + r < 256 * p;
    QuotientIs(x, 256 * p, a, 256 * b + r);
  }

  lemma Multiple(e: nat, d: nat)
    requires e >= 1
    ensures e * d >= d
  {}

  lemma QuotientIs(x: nat, d: nat, q: nat, r: nat)
    requires d > 0 && r < d && x == q * d + r
    ensures x / d == q
  {
    assert x == (x / d) * d + x % d;
    assert (x / d - q) * d == r - x % d;
    if x / d > q {
      Multiple(x / d - q, d);
    } else if x / d < q {
      assert (q - x / d) * d == x % d - r;
      Multiple(q - x / d, d);
    }
  }

  /** Byte `i` of a big-endian integer is its digit of weight 256 to the power of what follows. */
  lemma {:induction false} BigEndianDigits(x: nat, width: nat, i: nat)
    requires x < Power256(width) && i < width
    ensures ToBigEndian(x, width)[i] == x / Power256(width - 1 - i) % 256
    decreases width
  {
    if i < width - 1 {
      assert x / 256 < Power256(width - 1);
      BigEndianDigits(x / 256, width - 1, i);
      DivideTwice(x, Power256(width - 2 - i));
    }
  }

  lemma Digits64(x: U64)
    ensures DigitsAt(Write64(x), 0, 8, x)
  {
    Widths();
    assert Write64(x)[0..8] == Write64(x);
    forall i | 0 <= i < 8 ensures Write64(x)[i] == x / Power256(7 - i) % 256 { BigEndianDigits(x, 8, i); }
  }

  lemma Digits32(x: U32)
    ensures DigitsAt(Write32(x), 0, 4, x)
  {
    Widths();
    assert Write32(x)[0..4] == Write32(x);
    forall i | 0 <= i < 4 ensures Write32(x)[i] == x / Power256(3 - i) % 256 { BigEndianDigits(x, 4, i); }
  }

  lemma Digits16(x: nat)
    requires x < 0x1_0000
    ensures DigitsAt(Write16(x), 0, 2, x)
  {
    Widths();
    assert Write16(x)[0..2] == Write16(x);
    forall i | 0 <= i < 2 ensures Write16(x)[i] == x / Power256(1 - i) % 256 { BigEndianDigits(x, 2, i); }
  }

  lemma Placed(before: Bytes, digits: Bytes, after: Bytes, x: nat)
    requires DigitsAt(digits, 0, |digits|, x)
    ensures DigitsAt(before + digits + after, |before|, |digits|, x)
  {
    hide Power256;
    assert (before + digits + after)[|before|..|before| + |digits|] == digits[0..|digits|];
  }

  /** FSS2: 56 bytes. The ID is nonzero, odd for a client and even for a server. */
  lemma PrefaceLayout(p: SetupPreface)
    requires |p.mac| == 32
    ensures EncodePreface(p).Ok? <==> p.id != 0 && p.id % 2 == (if p.opener.Client? then 1 else 0)
    ensures EncodePreface(p).Ok? ==>
              var raw := EncodePreface(p).value;
              && |raw| == 56 && raw[..4] == [0x46, 0x53, 0x53, 0x32]
              && raw[4..8] == [2, if p.opener.Client? then 1 else 2, 0, 0]
              && DigitsAt(raw, 8, 8, p.id) && DigitsAt(raw, 16, 4, p.initialEpoch)
              && raw[20..24] == [0, 0, 0, 0] && raw[24..] == p.mac
  {
    hide DigitsAt;
    if EncodePreface(p).Ok? {
      PrefaceBytes(p, EncodePreface(p).value);
    }
  }

  lemma PrefaceBytes(p: SetupPreface, raw: Bytes)
    requires |p.mac| == 32 && EncodePreface(p) == Ok(raw)
    ensures |raw| == 56 && raw[..4] == [0x46, 0x53, 0x53, 0x32]
    ensures raw[4..8] == [2, if p.opener.Client? then 1 else 2, 0, 0]
    ensures DigitsAt(raw, 8, 8, p.id) && DigitsAt(raw, 16, 4, p.initialEpoch)
    ensures raw[20..24] == [0, 0, 0, 0] && raw[24..] == p.mac
  {
    hide Write64, Write32, ValidId, DigitsAt;
    var head := [0x46, 0x53, 0x53, 0x32] + [2, if p.opener.Client? then 1 else 2, 0, 0];
    var a, b, c := Write64(p.id), Write32(p.initialEpoch), [0, 0, 0, 0] + p.mac;
    Digits64(p.id);
    Digits32(p.initialEpoch);
    Placed(head, a, b + c, p.id);
    Placed(head + a, b, c, p.initialEpoch);
    assert raw == head + a + (b + c) && raw == head + a + b + c;
    assert raw[20..24] == [0, 0, 0, 0] && raw[24..] == p.mac;
  }

  /** FSR2: 24 bytes, for a ciphertext of 16 to 16408. */
  lemma HeaderLayout(h: RecordHeader)
    ensures h.ciphertextLength < 16 ==> EncodeHeader(h) == Err(InvalidRecordHeader)
    ensures h.ciphertextLength > 16_408 ==> EncodeHeader(h) == Err(RecordTooLarge)
    ensures 16 <= h.ciphertextLength <= 16_408 ==>
              && EncodeHeader(h).Ok?
              && var raw := EncodeHeader(h).value;
                 && |raw| == 24 && raw[..8] == [0x46, 0x53, 0x52, 0x32, 2, 24, 0, 0]
                 && DigitsAt(raw, 8, 4, h.epoch) && DigitsAt(raw, 12, 8, h.sequence)
                 && DigitsAt(raw, 20, 4, h.ciphertextLength)
  {
    if 16 <= h.ciphertextLength <= 16_408 {
      var raw := EncodeHeader(h).value;
      var head := [0x46, 0x53, 0x52, 0x32] + [2, 24, 0, 0];
      hide Write64, Write32, DigitsAt;
      Digits32(h.epoch);
      Digits64(h.sequence);
      Digits32(h.ciphertextLength);
      var a, b, c := Write32(h.epoch), Write64(h.sequence), Write32(h.ciphertextLength);
      Placed(head, a, b + c, h.epoch);
      Placed(head + a, b, c, h.sequence);
      Placed(head + a + b, c, [], h.ciphertextLength);
      assert raw == head + a + (b + c) && raw == head + a + b + c && raw == head + a + b + c + [];
      assert raw[..8] == head;
    }
  }

  /** FSD2: 32 bytes, for a ciphertext of 16 to 992 and an expiry that is not zero. */
  lemma DatagramHeaderLayout(h: DatagramHeader)
    ensures EncodeDatagramHeader(h).Ok? <==> 16 <= h.ciphertextLength <= 992 && h.expiresAt != 0
    ensures EncodeDatagramHeader(h).Ok? ==>
              var raw := EncodeDatagramHeader(h).value;
              && |raw| == 32 && raw[..8] == [0x46, 0x53, 0x44, 0x32, 2, 0, 0, 32]
              && DigitsAt(raw, 8, 4, h.epoch) && DigitsAt(raw, 12, 8, h.sequence)
              && DigitsAt(raw, 20, 8, h.expiresAt) && DigitsAt(raw, 28, 4, h.ciphertextLength)
  {
    if EncodeDatagramHeader(h).Ok? {
      var raw := EncodeDatagramHeader(h).value;
      assert Write16(32) == [0, 32] by { Digits16(32); assert Power256(1) == 256 && Power256(0) == 1; }
      var head := [0x46, 0x53, 0x44, 0x32] + [2, 0] + [0, 32];
      hide Write64, Write32, Write16, DigitsAt;
      Digits32(h.epoch);
      Digits64(h.sequence);
      Digits64(h.expiresAt);
      Digits32(h.ciphertextLength);
      var a, b, c, d := Write32(h.epoch), Write64(h.sequence), Write64(h.expiresAt), Write32(h.ciphertextLength);
      Placed(head, a, b + c + d, h.epoch);
      Placed(head + a, b, c + d, h.sequence);
      Placed(head + a + b, c, d, h.expiresAt);
      Placed(head + a + b + c, d, [], h.ciphertextLength);
      assert raw == head + a + (b + c + d) && raw == head + a + b + (c + d);
      assert raw == head + a + b + c + d && raw == head + a + b + c + d + [];
      assert raw[..8] == head;
    }
  }

  /** The codes of record types, and the lengths of their payloads. */
  lemma PayloadLengths(t: RecordType, length: nat)
    ensures TypeByte(t) in {1, 2, 3, 4, 5, 6} || 16 <= TypeByte(t) <= 26
    ensures ValidPayloadLength(t, length) <==>
            match TypeByte(t)
            case 1 => 1 <= length <= 8_192
            case 2 => length == 32
            case 3 => length == 34
            case 4 => 1 <= length <= 16_384
            case 6 => length == 12
            case 17 => length == 8
            case 18 => length == 8
            case 19 => length == 20
            case 20 => length == 10
            case 21 => length == 10
            case 22 => length == 2
            case 24 => length == 20
            case 25 => length == 20
            case _ => length == 0
  {
  }

  /** The code of each record type. */
  lemma TypeCodes()
    ensures TypeByte(Open) == 1 && TypeByte(OpenAck) == 2 && TypeByte(OpenReject) == 3 && TypeByte(Data) == 4
    ensures TypeByte(Fin) == 5 && TypeByte(StreamKeyUpdate) == 6
    ensures TypeByte(SessionReady) == 16 && TypeByte(Ping) == 17 && TypeByte(Pong) == 18
    ensures TypeByte(SessionKeyUpdate) == 19 && TypeByte(StreamReset) == 20 && TypeByte(GoAway) == 21
    ensures TypeByte(SessionClose) == 22 && TypeByte(SessionReadyAck) == 23 && TypeByte(SessionKeyUpdateAck) == 24
    ensures TypeByte(StreamKeyUpdateAck) == 25 && TypeByte(SessionReadyConfirm) == 26
  {
  }

  /** An inner record: code, three zero bytes, length, payload. */
  lemma InnerLayout(x: InnerRecord)
    ensures EncodeInner(x).Ok? <==> ValidPayloadLength(x.kind, |x.payload|)
    ensures EncodeInner(x).Ok? ==>
              var raw := EncodeInner(x).value;
              && |raw| == 8 + |x.payload| && raw[..4] == [TypeByte(x.kind), 0, 0, 0]
              && DigitsAt(raw, 4, 4, |x.payload|) && raw[8..] == x.payload
  {
    if EncodeInner(x).Ok? {
      var raw := EncodeInner(x).value;
      hide Write32, TypeByte, DigitsAt;
      Digits32(|x.payload|);
      Placed([TypeByte(x.kind), 0, 0, 0], Write32(|x.payload|), x.payload, |x.payload|);
      assert raw[8..] == x.payload && raw[..4] == [TypeByte(x.kind), 0, 0, 0];
    }
  }

  /** The acknowledgement of a stream key update: 20 bytes. */
  lemma AckLayout(x: KeyUpdateAck)
    ensures var raw := EncodeAck(x);
            && |raw| == 20 && DigitsAt(raw, 0, 8, x.id) && DigitsAt(raw, 8, 8, x.transition)
            && DigitsAt(raw, 16, 4, x.nextEpoch)
  {
    var a, b, c := Write64(x.id), Write64(x.transition), Write32(x.nextEpoch);
    hide Write64, Write32, DigitsAt;
    Digits64(x.id);
    Digits64(x.transition);
    Digits32(x.nextEpoch);
    Placed([], a, b + c, x.id);
    Placed(a, b, c, x.transition);
    Placed(a + b, c, [], x.nextEpoch);
    assert EncodeAck(x) == [] + a + (b + c) && EncodeAck(x) == a + b + c + [];
  }
}
