// Byte strings and the big-endian integers inside them.
module ByteStrings {
  type Byte = b: int | 0 <= b < 256

  type Bytes = seq<Byte>

  function Power256(width: nat): (r: nat)
    ensures r > 0
  {
    if width == 0 then 1 else 256 * Power256(width - 1)
  }

  function ToBigEndian(value: nat, width: nat): (r: Bytes)
    requires value < Power256(width)
    ensures |r| == width
  {
    if width == 0 then []
    else
      assert value / 256 < Power256(width - 1);
      ToBigEndian(value / 256, width - 1) + [value % 256]
  }

  function FromBigEndian(raw: Bytes): (r: nat)
    ensures r < Power256(|raw|)
  {
    if raw == [] then 0
    else FromBigEndian(raw[..|raw| - 1]) * 256 + raw[|raw| - 1]
  }

  lemma {:induction false} BigEndianReadsBack(value: nat, width: nat)
    requires value < Power256(width)
    ensures FromBigEndian(ToBigEndian(value, width)) == value
  {
    if width > 0 {
      var raw := ToBigEndian(value, width);
      assert value / 256 < Power256(width - 1);
      assert raw[..width - 1] == ToBigEndian(value / 256, width - 1);
      BigEndianReadsBack(value / 256, width - 1);
    }
  }

  lemma {:induction false} BigEndianWritesBack(raw: Bytes)
    ensures ToBigEndian(FromBigEndian(raw), |raw|) == raw
    decreases |raw|
  {
    if raw != [] {
      BigEndianWritesBack(raw[..|raw| - 1]);
      assert raw == raw[..|raw| - 1] + [raw[|raw| - 1]];
    }
  }

  lemma Widths()
    ensures Power256(1) == 0x100 && Power256(2) == 0x1_0000 && Power256(4) == 0x1_0000_0000
    ensures Power256(8) == 0x1_0000_0000_0000_0000
  {
    assert Power256(3) == 0x100_0000;
    assert Power256(5) == 0x100_0000_0000;
    assert Power256(6) == 0x1_0000_0000_0000;
    assert Power256(7) == 0x100_0000_0000_0000;
  }
}
