/** The fixed wire formats: stream setup prefaces (FSS2), record headers (FSR2),
    datagram headers (FSD2), inner records, OPEN payloads and the acknowledgement of a
    stream key update. Each encoder and decoder is proved to be the other's inverse. */
module Wire {
  import opened Basics
  import opened ByteStrings
  import opened Ledgers

  datatype WireError =
    | InvalidSetupPreface
    | InvalidRecordHeader
    | RecordTooLarge
    | InvalidInnerRecord
    | InvalidUnreliableMessage
    | InvalidOpenPayload
    | InvalidKeyUpdateAck

  datatype Result<+T> = Ok(value: T) | Err(error: WireError)

  const INNER_HEADER_SIZE: nat := 8
  const MAX_OPEN: nat := 8_192
  const MAX_CIPHERTEXT: nat := INNER_HEADER_SIZE + MAX_DATA + TAG_SIZE

  type U32 = x: nat | x <= U32_MAX
  type U64 = x: nat | x <= U64_MAX

  function Write32(x: U32): (r: Bytes)
    ensures |r| == 4 && FromBigEndian(r) == x
  {
    Widths();
    BigEndianReadsBack(x, 4);
    ToBigEndian(x, 4)
  }

  function Write64(x: U64): (r: Bytes)
    ensures |r| == 8 && FromBigEndian(r) == x
  {
    Widths();
    BigEndianReadsBack(x, 8);
    ToBigEndian(x, 8)
  }

  function Write16(x: nat): (r: Bytes)
    requires x < 0x1_0000
    ensures |r| == 2 && FromBigEndian(r) == x
  {
    Widths();
    BigEndianReadsBack(x, 2);
    ToBigEndian(x, 2)
  }

  function Read32(raw: Bytes): (r: U32)
    requires |raw| == 4
    ensures Write32(r) == raw
  {
    Widths();
    BigEndianWritesBack(raw);
    FromBigEndian(raw)
  }

  function Read64(raw: Bytes): (r: U64)
    requires |raw| == 8
    ensures Write64(r) == raw
  {
    Widths();
    BigEndianWritesBack(raw);
    FromBigEndian(raw)
  }

  function Read16(raw: Bytes): (r: nat)
    requires |raw| == 2
    ensures r < 0x1_0000 && Write16(r) == raw
  {
    Widths();
    BigEndianWritesBack(raw);
    FromBigEndian(raw)
  }


  // ----- Setup preface --------------------------------------------------------------

  const FSS2: Bytes := [0x46, 0x53, 0x53, 0x32]

  datatype SetupPreface = SetupPreface(opener: Role, id: U64, initialEpoch: U32, mac: Bytes)

  function RoleByte(role: Role): Byte {
    if role.Client? then 1 else 2
  }

  function EncodePreface(p: SetupPreface): Result<Bytes>
    requires |p.mac| == 32
  {
    if !ValidId(p.opener, p.id) then Err(InvalidSetupPreface)
    else Ok(FSS2 + [2, RoleByte(p.opener), 0, 0] + Write64(p.id) + Write32(p.initialEpoch) + [0, 0, 0, 0] + p.mac)
  }

  function DecodePreface(raw: Bytes): (r: Result<SetupPreface>)
    ensures r.Ok? ==> |r.value.mac| == 32
  {
    if |raw| != 56 || raw[..4] != FSS2 || raw[4] != 2 || raw[6] != 0 || raw[7] != 0 || raw[20..24] != [0, 0, 0, 0]
    then Err(InvalidSetupPreface)
    else if raw[5] != 1 && raw[5] != 2 then Err(InvalidSetupPreface)
    else
      var opener := if raw[5] == 1 then Client else Server;
      var id := Read64(raw[8..16]);
      if !ValidId(opener, id) then Err(InvalidSetupPreface)
      else Ok(SetupPreface(opener, id, Read32(raw[16..20]), raw[24..]))
  }

  lemma PrefaceReadsBack(p: SetupPreface)
    requires |p.mac| == 32 && EncodePreface(p).Ok?
    ensures DecodePreface(EncodePreface(p).value) == Ok(p)
  {
    hide ValidId, Read64, Read32, Write64, Write32;
    var raw := EncodePreface(p).value;
    assert raw[8..16] == Write64(p.id);
    assert raw[16..20] == Write32(p.initialEpoch);
    assert raw[20..24] == [0, 0, 0, 0];
    assert raw[24..] == p.mac;
    assert raw[..4] == FSS2;
    Read64Back(p.id);
    Read32Back(p.initialEpoch);
  }

  lemma PrefaceWritesBack(raw: Bytes)
    requires DecodePreface(raw).Ok?
    ensures EncodePreface(DecodePreface(raw).value) == Ok(raw)
  {
    hide ValidId, Write64, Write32;
    assert raw == raw[..4] + raw[4..8] + raw[8..16] + raw[16..20] + raw[20..24] + raw[24..];
    assert raw[4..8] == [2, raw[5], 0, 0];
  }

  // Exactly the encodings are accepted.
  lemma PrefaceAcceptedExactly(raw: Bytes)
    ensures DecodePreface(raw).Ok? <==> exists p: SetupPreface :: |p.mac| == 32 && EncodePreface(p) == Ok(raw)
  {
    if DecodePreface(raw).Ok? {
      PrefaceWritesBack(raw);
    }
    forall p: SetupPreface | |p.mac| == 32 && EncodePreface(p) == Ok(raw)
      ensures DecodePreface(raw).Ok?
    {
      PrefaceReadsBack(p);
    }
  }

  lemma Read64Back(x: U64)
    ensures Read64(Write64(x)) == x
  {}

  lemma Read32Back(x: U32)
    ensures Read32(Write32(x)) == x
  {}

  // ----- Record header --------------------------------------------------------------

  const FSR2: Bytes := [0x46, 0x53, 0x52, 0x32]

  datatype RecordHeader = RecordHeader(epoch: U32, sequence: U64, ciphertextLength: U32)

  function EncodeHeader(h: RecordHeader): Result<Bytes> {
    if h.ciphertextLength < TAG_SIZE then Err(InvalidRecordHeader)
    else if h.ciphertextLength > MAX_CIPHERTEXT then Err(RecordTooLarge)
    else Ok(FSR2 + [2, 24, 0, 0] + Write32(h.epoch) + Write64(h.sequence) + Write32(h.ciphertextLength))
  }

  function DecodeHeader(raw: Bytes): Result<RecordHeader> {
    if |raw| != 24 || raw[..4] != FSR2 || raw[4] != 2 || raw[5] != 24 || raw[6] != 0 || raw[7] != 0
    then Err(InvalidRecordHeader)
    else
      var h := RecordHeader(Read32(raw[8..12]), Read64(raw[12..20]), Read32(raw[20..24]));
      if EncodeHeader(h).Err? then Err(EncodeHeader(h).error) else Ok(h)
  }

  lemma HeaderReadsBack(h: RecordHeader)
    requires EncodeHeader(h).Ok?
    ensures DecodeHeader(EncodeHeader(h).value) == Ok(h)
  {
    hide Read64, Read32, Write64, Write32;
    var raw := EncodeHeader(h).value;
    assert raw[..4] == FSR2;
    assert raw[8..12] == Write32(h.epoch);
    assert raw[12..20] == Write64(h.sequence);
    assert raw[20..24] == Write32(h.ciphertextLength);
    Read32Back(h.epoch);
    Read64Back(h.sequence);
    Read32Back(h.ciphertextLength);
  }

  lemma HeaderWritesBack(raw: Bytes)
    requires DecodeHeader(raw).Ok?
    ensures EncodeHeader(DecodeHeader(raw).value) == Ok(raw)
  {
    hide Write64, Write32;
    assert raw == raw[..4] + raw[4..8] + raw[8..12] + raw[12..20] + raw[20..24];
    assert raw[4..8] == [2, 24, 0, 0];
  }

  lemma HeaderAcceptedExactly(raw: Bytes)
    ensures DecodeHeader(raw).Ok? <==> exists x :: EncodeHeader(x) == Ok(raw)
  {
    hide EncodeHeader, DecodeHeader;
    if DecodeHeader(raw).Ok? {
      HeaderWritesBack(raw);
    }
    forall x | EncodeHeader(x) == Ok(raw)
      ensures DecodeHeader(raw).Ok?
    {
      HeaderReadsBack(x);
    }
  }

  // ----- Datagram header ------------------------------------------------------------

  const FSD2: Bytes := [0x46, 0x53, 0x44, 0x32]

  datatype DatagramHeader = DatagramHeader(epoch: U32, sequence: U64, expiresAt: U64, ciphertextLength: U32)

  function EncodeDatagramHeader(h: DatagramHeader): Result<Bytes> {
    if !(TAG_SIZE <= h.ciphertextLength <= MAX_DATAGRAM + TAG_SIZE) || h.expiresAt == 0
    then Err(InvalidUnreliableMessage)
    else Ok(FSD2 + [2, 0] + Write16(DATAGRAM_HEADER_SIZE) + Write32(h.epoch) + Write64(h.sequence)
            + Write64(h.expiresAt) + Write32(h.ciphertextLength))
  }

  function DecodeDatagramHeader(raw: Bytes): Result<DatagramHeader> {
    if || |raw| != DATAGRAM_HEADER_SIZE || raw[..4] != FSD2 || raw[4] != 2 || raw[5] != 0
       || Read16(raw[6..8]) != DATAGRAM_HEADER_SIZE
    then Err(InvalidUnreliableMessage)
    else
      var h := DatagramHeader(Read32(raw[8..12]), Read64(raw[12..20]), Read64(raw[20..28]), Read32(raw[28..32]));
      if EncodeDatagramHeader(h).Err? then Err(EncodeDatagramHeader(h).error) else Ok(h)
  }

  lemma DatagramHeaderReadsBack(h: DatagramHeader)
    requires EncodeDatagramHeader(h).Ok?
    ensures DecodeDatagramHeader(EncodeDatagramHeader(h).value) == Ok(h)
  {
    hide Read64, Read32, Write64, Write32;
    var raw := EncodeDatagramHeader(h).value;
    assert raw[..4] == FSD2;
    assert raw[6..8] == Write16(DATAGRAM_HEADER_SIZE);
    assert raw[8..12] == Write32(h.epoch);
    assert raw[12..20] == Write64(h.sequence);
    assert raw[20..28] == Write64(h.expiresAt);
    assert raw[28..32] == Write32(h.ciphertextLength);
    Read32Back(h.epoch);
    Read64Back(h.sequence);
    Read64Back(h.expiresAt);
    Read32Back(h.ciphertextLength);
  }

  lemma DatagramHeaderWritesBack(raw: Bytes)
    requires DecodeDatagramHeader(raw).Ok?
    ensures EncodeDatagramHeader(DecodeDatagramHeader(raw).value) == Ok(raw)
  {
    hide Write64, Write32, Write16;
    assert raw == raw[..4] + raw[4..6] + raw[6..8] + raw[8..12] + raw[12..20] + raw[20..28] + raw[28..32];
    assert raw[4..6] == [2, 0];
  }

  lemma DatagramHeaderAcceptedExactly(raw: Bytes)
    ensures DecodeDatagramHeader(raw).Ok? <==> exists x :: EncodeDatagramHeader(x) == Ok(raw)
  {
    hide EncodeDatagramHeader, DecodeDatagramHeader;
    if DecodeDatagramHeader(raw).Ok? {
      DatagramHeaderWritesBack(raw);
    }
    forall x | EncodeDatagramHeader(x) == Ok(raw)
      ensures DecodeDatagramHeader(raw).Ok?
    {
      DatagramHeaderReadsBack(x);
    }
  }

  // ----- Inner record ---------------------------------------------------------------

  datatype RecordType =
    | Open | OpenAck | OpenReject | Data | Fin | StreamKeyUpdate
    | SessionReady | Ping | Pong | SessionKeyUpdate | StreamReset | GoAway | SessionClose
    | SessionReadyAck | SessionKeyUpdateAck | StreamKeyUpdateAck | SessionReadyConfirm

  function TypeByte(t: RecordType): Byte {
    match t
    case Open => 1
    case OpenAck => 2
    case OpenReject => 3
    case Data => 4
    case Fin => 5
    case StreamKeyUpdate => 6
    case SessionReady => 16
    case Ping => 17
    case Pong => 18
    case SessionKeyUpdate => 19
    case StreamReset => 20
    case GoAway => 21
    case SessionClose => 22
    case SessionReadyAck => 23
    case SessionKeyUpdateAck => 24
    case StreamKeyUpdateAck => 25
    case SessionReadyConfirm => 26
  }

  function TypeOf(b: Byte): Option<RecordType> {
    match b
    case 1 => Some(Open)
    case 2 => Some(OpenAck)
    case 3 => Some(OpenReject)
    case 4 => Some(Data)
    case 5 => Some(Fin)
    case 6 => Some(StreamKeyUpdate)
    case 16 => Some(SessionReady)
    case 17 => Some(Ping)
    case 18 => Some(Pong)
    case 19 => Some(SessionKeyUpdate)
    case 20 => Some(StreamReset)
    case 21 => Some(GoAway)
    case 22 => Some(SessionClose)
    case 23 => Some(SessionReadyAck)
    case 24 => Some(SessionKeyUpdateAck)
    case 25 => Some(StreamKeyUpdateAck)
    case 26 => Some(SessionReadyConfirm)
    case _ => None
  }

  predicate ValidPayloadLength(t: RecordType, length: nat) {
    match t
    case Open => 1 <= length <= MAX_OPEN
    case Data => 1 <= length <= MAX_DATA
    case Fin => length == 0
    case SessionReady => length == 0
    case SessionReadyAck => length == 0
    case SessionReadyConfirm => length == 0
    case OpenAck => length == 32
    case OpenReject => length == 34
    case StreamKeyUpdate => length == 12
    case Ping => length == 8
    case Pong => length == 8
    case SessionKeyUpdate => length == 20
    case SessionKeyUpdateAck => length == 20
    case StreamKeyUpdateAck => length == 20
    case StreamReset => length == 10
    case GoAway => length == 10
    case SessionClose => length == 2
  }

  datatype InnerRecord = InnerRecord(kind: RecordType, payload: Bytes)

  function EncodeInner(x: InnerRecord): Result<Bytes> {
    if !ValidPayloadLength(x.kind, |x.payload|) then Err(InvalidInnerRecord)
    else Ok([TypeByte(x.kind), 0, 0, 0] + Write32(|x.payload|) + x.payload)
  }

  function DecodeInner(raw: Bytes): Result<InnerRecord> {
    if |raw| < INNER_HEADER_SIZE || raw[1..4] != [0, 0, 0] then Err(InvalidInnerRecord)
    else
      var length := Read32(raw[4..8]);
      if INNER_HEADER_SIZE + length != |raw| then Err(InvalidInnerRecord)
      else if TypeOf(raw[0]).None? then Err(InvalidInnerRecord)
      else if !ValidPayloadLength(TypeOf(raw[0]).value, length) then Err(InvalidInnerRecord)
      else Ok(InnerRecord(TypeOf(raw[0]).value, raw[INNER_HEADER_SIZE..]))
  }

  lemma TypeReadsBack(t: RecordType)
    ensures TypeOf(TypeByte(t)) == Some(t)
  {}

  lemma TypeWritesBack(b: Byte)
    requires TypeOf(b).Some?
    ensures TypeByte(TypeOf(b).value) == b
  {}

  lemma InnerReadsBack(x: InnerRecord)
    requires EncodeInner(x).Ok?
    ensures DecodeInner(EncodeInner(x).value) == Ok(x)
  {
    TypeReadsBack(x.kind);
    hide Read32, Write32, TypeOf, TypeByte;
    var raw := EncodeInner(x).value;
    assert raw[1..4] == [0, 0, 0];
    assert raw[4..8] == Write32(|x.payload|);
    assert raw[8..] == x.payload;
    Read32Back(|x.payload|);
  }

  lemma InnerWritesBack(raw: Bytes)
    requires DecodeInner(raw).Ok?
    ensures EncodeInner(DecodeInner(raw).value) == Ok(raw)
  {
    TypeWritesBack(raw[0]);
    hide Write32, TypeOf, TypeByte, ValidPayloadLength;
    assert [raw[0], 0, 0, 0] == [raw[0]] + raw[1..4];
    assert raw == [raw[0]] + raw[1..4] + raw[4..8] + raw[8..];
  }

  lemma InnerAcceptedExactly(raw: Bytes)
    ensures DecodeInner(raw).Ok? <==> exists x :: EncodeInner(x) == Ok(raw)
  {
    hide EncodeInner, DecodeInner;
    if DecodeInner(raw).Ok? {
      InnerWritesBack(raw);
    }
    forall x | EncodeInner(x) == Ok(raw)
      ensures DecodeInner(raw).Ok?
    {
      InnerReadsBack(x);
    }
  }

  // Whatever inner record can be encoded, the header of the record that seals it can be.
  lemma InnerRecordFits(x: InnerRecord, epoch: U32, sequence: U64)
    requires EncodeInner(x).Ok?
    ensures var length := |EncodeInner(x).value| + TAG_SIZE;
            length <= U32_MAX && EncodeHeader(RecordHeader(epoch, sequence, length)).Ok?
  {}

  // A datagram of one to 976 bytes has an encodable header and a wire form of at most 1024.
  lemma DatagramFits(payload: Bytes, epoch: U32, sequence: U64, expiresAt: U64)
    requires 1 <= |payload| <= MAX_DATAGRAM && 0 < expiresAt
    ensures var h := DatagramHeader(epoch, sequence, expiresAt, |payload| + TAG_SIZE);
            && EncodeDatagramHeader(h).Ok?
            && |EncodeDatagramHeader(h).value| == DATAGRAM_HEADER_SIZE
            && 49 <= DATAGRAM_HEADER_SIZE + h.ciphertextLength <= 1_024
  {}

  // ----- Acknowledgement of a stream key update -------------------------------------

  datatype KeyUpdateAck = KeyUpdateAck(id: U64, transition: U64, nextEpoch: U32)

  function EncodeAck(x: KeyUpdateAck): Bytes {
    Write64(x.id) + Write64(x.transition) + Write32(x.nextEpoch)
  }

  function DecodeAck(raw: Bytes): Result<KeyUpdateAck> {
    if |raw| != 20 then Err(InvalidKeyUpdateAck)
    else Ok(KeyUpdateAck(Read64(raw[..8]), Read64(raw[8..16]), Read32(raw[16..20])))
  }

  lemma AckReadsBack(x: KeyUpdateAck)
    ensures DecodeAck(EncodeAck(x)) == Ok(x)
  {
    hide Read64, Read32, Write64, Write32;
    var raw := EncodeAck(x);
    assert raw[..8] == Write64(x.id);
    assert raw[8..16] == Write64(x.transition);
    assert raw[16..20] == Write32(x.nextEpoch);
    Read64Back(x.id);
    Read64Back(x.transition);
    Read32Back(x.nextEpoch);
  }

  lemma AckWritesBack(raw: Bytes)
    requires DecodeAck(raw).Ok?
    ensures EncodeAck(DecodeAck(raw).value) == raw
  {
    hide Write64, Write32;
    assert raw == raw[..8] + raw[8..16] + raw[16..20];
  }
}
