/** The OPEN payload: stream ID, preface hash, kind and canonical metadata. The JSON parser
    and the Unicode tables are the parameters `parse` and `unicode`. */
module OpenPayloads {
  import opened Basics
  import opened ByteStrings
  import opened Texts
  import opened Metadata
  import opened Canonical
  import opened Wire
  import opened WireLayouts

  const FIXED_SIZE: nat := 46
  const MAX_KIND_BYTES: nat := 128

  datatype OpenPayload = OpenPayload(id: U64, hash: Bytes, kind: Text, metadata: Bytes)

  predicate Whitespace(c: Scalar) {
    || 0x09 <= c <= 0x0D || c == 0x20 || c == 0x85 || c == 0xA0 || c == 0x1680
    || 0x2000 <= c <= 0x200A || c == 0x2028 || c == 0x2029 || c == 0x202F || c == 0x205F || c == 0x3000
  }

  predicate ValidKind(kind: Text, unicode: Text -> bool) {
    && ValidText(kind, MAX_KIND_BYTES, false, unicode)
    && !Whitespace(kind[0]) && !Whitespace(kind[|kind| - 1])
  }

  // Well-formed UTF-8 is read back to the one text it encodes.
  ghost function DecodeUtf8(raw: Bytes): (r: Option<Text>)
    ensures r.Some? ==> Utf8(r.value) == raw
    ensures r.None? ==> forall t :: Utf8(t) != raw
  {
    if exists t :: Utf8(t) == raw then
      var t :| Utf8(t) == raw;
      Some(t)
    else None
  }

  lemma Utf8ReadsBack(t: Text)
    ensures DecodeUtf8(Utf8(t)) == Some(t)
  {
    Utf8Injective(DecodeUtf8(Utf8(t)).value, t);
  }

  ghost function EncodeOpen(p: OpenPayload, parse: Bytes -> Option<Value>, unicode: Text -> bool): Result<Bytes>
    requires |p.hash| == 32
  {
    if p.id == 0 || !ValidKind(p.kind, unicode) then Err(InvalidOpenPayload)
    else
      var metadata := CanonicalMetadata(p.metadata, true, parse(p.metadata), unicode);
      if metadata.None? then Err(InvalidOpenPayload)
      else if FIXED_SIZE + |Utf8(p.kind)| + |metadata.value| > MAX_OPEN then Err(InvalidOpenPayload)
      else Ok(Write64(p.id) + p.hash + Write16(|Utf8(p.kind)|) + Write32(|metadata.value|)
              + Utf8(p.kind) + metadata.value)
  }

  ghost function DecodeOpen(raw: Bytes, parse: Bytes -> Option<Value>, unicode: Text -> bool)
    : (r: Result<OpenPayload>)
    ensures r.Ok? ==> |r.value.hash| == 32
  {
    if |raw| < FIXED_SIZE || |raw| > MAX_OPEN then Err(InvalidOpenPayload)
    else if Read64(raw[..8]) == 0 then Err(InvalidOpenPayload)
    else
      var kindLength, metadataLength := Read16(raw[40..42]), Read32(raw[42..46]);
      if FIXED_SIZE + kindLength + metadataLength != |raw| then Err(InvalidOpenPayload)
      else
        var kindEnd := FIXED_SIZE + kindLength;
        var kind := DecodeUtf8(raw[FIXED_SIZE..kindEnd]);
        if kind.None? || !ValidKind(kind.value, unicode) then Err(InvalidOpenPayload)
        else
          var metadata := CanonicalMetadata(raw[kindEnd..], false, parse(raw[kindEnd..]), unicode);
          if metadata.None? then Err(InvalidOpenPayload)
          else Ok(OpenPayload(Read64(raw[..8]), raw[8..40], kind.value, metadata.value))
  }

  lemma Slices(a: Bytes, b: Bytes, c: Bytes, d: Bytes, e: Bytes, f: Bytes)
    requires |a| == 8 && |b| == 32 && |c| == 2 && |d| == 4
    ensures var raw := a + b + c + d + e + f;
            && |raw| == FIXED_SIZE + |e| + |f|
            && raw[..8] == a && raw[8..40] == b && raw[40..42] == c && raw[42..46] == d
            && raw[46..46 + |e|] == e && raw[46 + |e|..] == f
  {
    var raw := a + b + c + d + e + f;
    assert raw[46..46 + |e|] == e;
    assert raw[46 + |e|..] == f;
    assert raw[42..46] == d;
    assert raw[40..42] == c;
    assert raw[8..40] == b;
  }

  lemma Read16Back(x: nat)
    requires x < 0x1_0000
    ensures Read16(Write16(x)) == x
  {}

  // No metadata is sent as the empty object; everything else reads back as it was.
  lemma OpenReadsBack(p: OpenPayload, parse: Bytes -> Option<Value>, unicode: Text -> bool)
    requires |p.hash| == 32 && EncodeOpen(p, parse, unicode).Ok?
    requires parse(EMPTY_OBJECT) == Some(Object([], []))
    ensures DecodeOpen(EncodeOpen(p, parse, unicode).value, parse, unicode)
            == Ok(p.(metadata := if p.metadata == [] then EMPTY_OBJECT else p.metadata))
  {
    hide Utf8, Read64, Read32, Read16, Write64, Write32, Write16, ValidText, Fits, Print, DecodeUtf8;
    EmptyObjectIsCanonical(unicode);
    var metadata := CanonicalMetadata(p.metadata, true, parse(p.metadata), unicode).value;
    assert CanonicalMetadata(metadata, false, parse(metadata), unicode) == Some(metadata);
    KindIsShort(p.kind, unicode);
    Read64Back(p.id);
    Read16Back(|Utf8(p.kind)|);
    Read32Back(|metadata|);
    Utf8ReadsBack(p.kind);
    Slices(Write64(p.id), p.hash, Write16(|Utf8(p.kind)|), Write32(|metadata|), Utf8(p.kind), metadata);
  }

  lemma KindIsShort(kind: Text, unicode: Text -> bool)
    requires ValidKind(kind, unicode)
    ensures |Utf8(kind)| <= MAX_KIND_BYTES
  {}

  lemma OpenWritesBack(raw: Bytes, parse: Bytes -> Option<Value>, unicode: Text -> bool)
    requires DecodeOpen(raw, parse, unicode).Ok?
    ensures EncodeOpen(DecodeOpen(raw, parse, unicode).value, parse, unicode) == Ok(raw)
  {
    hide Utf8, Write64, Write32, Write16, ValidKind, Fits, Print, DecodeUtf8;
    var kindEnd := FIXED_SIZE + Read16(raw[40..42]);
    Pieces(raw, kindEnd);
  }

  // Exactly the encodings are accepted.
  lemma OpenAcceptedExactly(raw: Bytes, parse: Bytes -> Option<Value>, unicode: Text -> bool)
    requires parse(EMPTY_OBJECT) == Some(Object([], []))
    ensures DecodeOpen(raw, parse, unicode).Ok? <==>
            exists p: OpenPayload :: |p.hash| == 32 && EncodeOpen(p, parse, unicode) == Ok(raw)
  {
    hide EncodeOpen, DecodeOpen;
    if DecodeOpen(raw, parse, unicode).Ok? {
      OpenWritesBack(raw, parse, unicode);
    }
    forall p: OpenPayload | |p.hash| == 32 && EncodeOpen(p, parse, unicode) == Ok(raw)
      ensures DecodeOpen(raw, parse, unicode).Ok?
    {
      OpenReadsBack(p, parse, unicode);
    }
  }

  // The characters with the Unicode property White_Space.
  ghost const WHITE_SPACE: set<int> :=
    {9, 10, 11, 12, 13, 32, 133, 160, 5760, 8192, 8193, 8194, 8195, 8196, 8197, 8198, 8199, 8200, 8201, 8202,
     8232, 8233, 8239, 8287, 12288}

  /** A kind is one to 128 bytes of assigned text in normal form, without control characters
      and without white space at either end. */
  lemma KindAcceptedExactly(kind: Text, unicode: Text -> bool)
    ensures ValidKind(kind, unicode) <==>
            && 1 <= |kind| && |Utf8(kind)| <= 128 && unicode(kind)
            && (forall i :: 0 <= i < |kind| ==> !(kind[i] < 0x20 || 0x7E < kind[i] < 0xA0))
            && kind[0] !in WHITE_SPACE && kind[|kind| - 1] !in WHITE_SPACE
  {
    hide Utf8;
    TextRefusedExactly(kind, 128, false, unicode);
    hide ValidText;
  }

  /** OPEN, byte by byte: what can be sent, and where each part of it is. */
  lemma OpenLayout(p: OpenPayload, parse: Bytes -> Option<Value>, unicode: Text -> bool)
    requires |p.hash| == 32
    ensures var metadata := CanonicalMetadata(p.metadata, true, parse(p.metadata), unicode);
            var sent := EncodeOpen(p, parse, unicode);
            && (sent.Ok? <==>
                && p.id != 0 && ValidKind(p.kind, unicode) && metadata.Some?
                && 46 + |Utf8(p.kind)| + |metadata.value| <= 8_192)
            && (sent.Ok? ==>
                  var raw, n := sent.value, |Utf8(p.kind)|;
                  && |raw| == 46 + n + |metadata.value|
                  && DigitsAt(raw, 0, 8, p.id) && raw[8..40] == p.hash
                  && DigitsAt(raw, 40, 2, n) && DigitsAt(raw, 42, 4, |metadata.value|)
                  && raw[46..46 + n] == Utf8(p.kind) && raw[46 + n..] == metadata.value)
  {
    hide Utf8, ValidKind, CanonicalMetadata, DigitsAt, Write64, Write32, Write16;
    var metadata := CanonicalMetadata(p.metadata, true, parse(p.metadata), unicode);
    if EncodeOpen(p, parse, unicode).Ok? {
      KindIsShort(p.kind, unicode);
      OpenBytes(p.id, p.hash, Utf8(p.kind), metadata.value);
    }
  }

  lemma OpenBytes(id: U64, hash: Bytes, kind: Bytes, metadata: Bytes)
    requires |hash| == 32 && |kind| < 0x1_0000 && |metadata| <= U32_MAX
    ensures var raw := Write64(id) + hash + Write16(|kind|) + Write32(|metadata|) + kind + metadata;
            && |raw| == 46 + |kind| + |metadata|
            && DigitsAt(raw, 0, 8, id) && raw[8..40] == hash
            && DigitsAt(raw, 40, 2, |kind|) && DigitsAt(raw, 42, 4, |metadata|)
            && raw[46..46 + |kind|] == kind && raw[46 + |kind|..] == metadata
  {
    hide DigitsAt, Write64, Write32, Write16;
    var a, c, d := Write64(id), Write16(|kind|), Write32(|metadata|);
    Slices(a, hash, c, d, kind, metadata);
    Digits64(id);
    Digits16(|kind|);
    Digits32(|metadata|);
    Placed([], a, hash + c + d + kind + metadata, id);
    Placed(a + hash, c, d + kind + metadata, |kind|);
    Placed(a + hash + c, d, kind + metadata, |metadata|);
    Regrouped(a, hash, c, d, kind, metadata);
  }

  lemma Regrouped(a: Bytes, b: Bytes, c: Bytes, d: Bytes, e: Bytes, f: Bytes)
    ensures a + b + c + d + e + f == [] + a + (b + c + d + e + f)
    ensures a + b + c + d + e + f == a + b + c + (d + e + f)
    ensures a + b + c + d + e + f == a + b + c + d + (e + f)
  {}

  lemma Pieces(raw: Bytes, kindEnd: nat)
    requires FIXED_SIZE <= kindEnd <= |raw|
    ensures raw == raw[..8] + raw[8..40] + raw[40..42] + raw[42..46] + raw[46..kindEnd] + raw[kindEnd..]
  {}
}
