/** The datagram replay window: a 128-bit bitmap below the highest sequence number
    seen, where bit `d` stands for the number `d` below it. */
module ReplayWindows {
  import opened Basics

  const WIDTH: nat := 128

  // ----- Machine words --------------------------------------------------------------

  function Twice(x: bv128): bv128 {
    x << 1
  }

  function Join(x: bv128, y: bv128): bv128 {
    x | y
  }

  predicate Meet(x: bv128, y: bv128) {
    x & y != 0
  }

  predicate OneHot(m: bv128) {
    m != 0 && m & (m - 1) == 0
  }

  lemma TwiceOneHot(m: bv128)
    requires OneHot(m)
    ensures Twice(m) == 0 || OneHot(Twice(m))
    ensures !Meet(1, Twice(m))
  {}

  lemma TwiceMeets(x: bv128, m: bv128)
    requires OneHot(m) && OneHot(Twice(m))
    ensures Meet(Twice(x), Twice(m)) <==> Meet(x, m)
  {
    assert (x << 1) & (m << 1) == (x & m) << 1;
    TopClear(m);
    if x & m != 0 {
      TwiceNonzero(x & m);
    }
  }

  lemma TopClear(m: bv128)
    requires OneHot(m) && Twice(m) != 0
    ensures m < 1 << 127
  {}

  lemma TwiceNonzero(x: bv128)
    requires 0 < x < 1 << 127
    ensures x << 1 != 0
  {}

  lemma JoinMeets(x: bv128, y: bv128, m: bv128)
    ensures Meet(Join(x, y), m) <==> Meet(x, m) || Meet(y, m)
  {
    hide Join, Meet;
    if !Meet(Join(x, y), m) {
      JoinApart(x, y, m);
    } else if !Meet(x, m) && !Meet(y, m) {
      PartsApart(x, y, m);
    }
  }

  lemma JoinApart(x: bv128, y: bv128, m: bv128)
    requires !Meet(Join(x, y), m)
    ensures !Meet(x, m) && !Meet(y, m)
  {}

  lemma PartsApart(x: bv128, y: bv128, m: bv128)
    requires !Meet(x, m) && !Meet(y, m)
    ensures !Meet(Join(x, y), m)
  {}

  function EightTimes(x: bv128): bv128 {
    x << 3
  }

  function SixteenTimes(x: bv128): bv128 {
    x << 4
  }

  lemma TwiceFourTimes(x: bv128)
    ensures Twice(Twice(Twice(x))) == EightTimes(x)
    ensures Twice(Twice(Twice(Twice(x)))) == SixteenTimes(x)
  {}

  // Repeated doubling, which is what a left shift by a variable distance amounts to.
  function ShiftLeft(x: bv128, distance: nat): bv128 {
    if distance == 0 then x else Twice(ShiftLeft(x, distance - 1))
  }

  function Mask(d: nat): bv128 {
    ShiftLeft(1, d)
  }

  predicate Bit(x: bv128, d: nat) {
    Meet(x, Mask(d))
  }

  // ----- The machine's shift is repeated doubling -----------------------------------

  lemma {:induction false} ShiftLeftTwice(x: bv128, a: nat, b: nat)
    ensures ShiftLeft(ShiftLeft(x, a), b) == ShiftLeft(x, a + b)
    decreases b
  {
    hide Twice;
    if b > 0 {
      ShiftLeftTwice(x, a, b - 1);
    }
  }

  // The shift operator on a distance that is itself a machine word.
  function Shifted(x: bv128, k: bv8): bv128
    requires k < 128
  {
    x << k
  }

  predicate PowerOfTwo(k: bv8) {
    k == 1 || k == 2 || k == 4 || k == 8 || k == 16 || k == 32 || k == 64
  }

  lemma Doubled1(x: bv128)
    ensures Shifted(x, 2) == Shifted(Shifted(x, 1), 1)
  {}

  lemma Doubled2(x: bv128)
    ensures Shifted(x, 4) == Shifted(Shifted(x, 2), 2)
  {}

  lemma Doubled4(x: bv128)
    ensures Shifted(x, 8) == Shifted(Shifted(x, 4), 4)
  {}

  lemma Doubled8(x: bv128)
    ensures Shifted(x, 16) == Shifted(Shifted(x, 8), 8)
  {}

  lemma Doubled16(x: bv128)
    ensures Shifted(x, 32) == Shifted(Shifted(x, 16), 16)
  {}

  lemma Doubled32(x: bv128)
    ensures Shifted(x, 64) == Shifted(Shifted(x, 32), 32)
  {}

  lemma Doubled(x: bv128, k: bv8)
    requires PowerOfTwo(k) && k < 64
    ensures Shifted(x, 2 * k) == Shifted(Shifted(x, k), k)
  {
    hide Shifted;
    if k == 1 { Doubled1(x); } else if k == 2 { Doubled2(x); } else if k == 4 { Doubled4(x); }
    else if k == 8 { Doubled8(x); } else if k == 16 { Doubled16(x); } else { Doubled32(x); }
  }

  lemma ShiftedLeast(x: bv128)
    ensures Shifted(x, 0) == x
  {}

  lemma ShiftedOnce(x: bv128)
    ensures Shifted(x, 1) == Twice(x)
  {}

  lemma ShiftedHigh(x: bv128, k: bv8)
    requires k < 128
    ensures k >= 64 ==> Shifted(x, k) == Shifted(Shifted(x, k - 64), 64)
    ensures 32 <= k < 64 ==> Shifted(x, k) == Shifted(Shifted(x, k - 32), 32)
  {}

  lemma ShiftedMiddle(x: bv128, k: bv8)
    requires k < 32
    ensures 16 <= k < 32 ==> Shifted(x, k) == Shifted(Shifted(x, k - 16), 16)
    ensures 8 <= k < 16 ==> Shifted(x, k) == Shifted(Shifted(x, k - 8), 8)
  {}

  lemma ShiftedLow(x: bv128, k: bv8)
    requires k < 8
    ensures 4 <= k < 8 ==> Shifted(x, k) == Shifted(Shifted(x, k - 4), 4)
    ensures 2 <= k < 4 ==> Shifted(x, k) == Shifted(Shifted(x, k - 2), 2)
  {}

  // The highest bit of a distance.
  function Top(k: bv8): bv8
    requires 0 < k < 128
  {
    if k >= 64 then 64 else if k >= 32 then 32 else if k >= 16 then 16
    else if k >= 8 then 8 else if k >= 4 then 4 else if k >= 2 then 2 else 1
  }

  lemma Peel(x: bv128, k: bv8)
    requires 0 < k < 128
    ensures Top(k) <= k && PowerOfTwo(Top(k)) && Shifted(x, k) == Shifted(Shifted(x, k - Top(k)), Top(k))
  {
    ShiftedHigh(x, k);
    if k < 32 { ShiftedMiddle(x, k); }
    if k < 8 { ShiftedLow(x, k); }
    hide Shifted;
    if k == 1 { ShiftedLeast(x); }
  }

  lemma TopValue(k: bv8)
    requires 0 < k < 128
    ensures Top(k) <= k && (k - Top(k)) as nat + Top(k) as nat == k as nat && Top(k) as nat > 0
  {
    if k >= 64 {} else if k >= 32 {} else if k >= 16 {} else if k >= 8 {} else if k >= 4 {} else if k >= 2 {} else {}
  }

  lemma Half(k: bv8)
    requires PowerOfTwo(k) && k != 1
    ensures PowerOfTwo(k / 2) && k / 2 < 64 && 2 * (k / 2) == k
    ensures (k / 2) as nat + (k / 2) as nat == k as nat && (k / 2) as nat < k as nat
  {}

  lemma PowerShift(x: bv128, k: bv8)
    requires PowerOfTwo(k)
    ensures Shifted(x, k) == ShiftLeft(x, k as nat)
    decreases k as nat
  {
    hide Shifted, Twice, PowerOfTwo;
    if k == 1 {
      ShiftedOnce(x);
      assert ShiftLeft(x, 1) == Twice(ShiftLeft(x, 0));
    } else {
      Half(k);
      var h := k / 2;
      Doubled(x, h);
      PowerShift(x, h);
      PowerShift(Shifted(x, h), h);
      ShiftLeftTwice(x, h as nat, h as nat);
    }
  }

  lemma {:induction false} ShiftedIsRepeatedDoubling(x: bv128, k: bv8)
    requires k < 128
    ensures Shifted(x, k) == ShiftLeft(x, k as nat)
    decreases k as nat
  {
    if k == 0 {
      ShiftedLeast(x);
    } else {
      hide Shifted, Twice, PowerOfTwo;
      Peel(x, k);
      TopValue(k);
      hide Top;
      ShiftedIsRepeatedDoubling(x, k - Top(k));
      PowerShift(Shifted(x, k - Top(k)), Top(k));
      ShiftLeftTwice(x, (k - Top(k)) as nat, Top(k) as nat);
    }
  }

  // A distance as a machine word.
  function Byte(n: nat): bv8 {
    if n == 0 then 0 else Byte(n - 1) + 1
  }

  lemma NextByte(b: bv8)
    requires b < 255
    ensures (b + 1) as nat == b as nat + 1
  {}

  lemma SmallByte(b: bv8)
    requires b as nat < WIDTH
    ensures b < 128
  {}

  lemma {:induction false} ByteValue(n: nat)
    requires n < WIDTH
    ensures Byte(n) as nat == n && Byte(n) < 128
  {
    if n > 0 {
      ByteValue(n - 1);
      NextByte(Byte(n - 1));
      SmallByte(Byte(n));
    }
  }

  // The shift operator, with a distance below the width of the word.
  function Shift(x: bv128, distance: nat): bv128
    requires distance < WIDTH
  {
    ByteValue(distance);
    x << Byte(distance)
  }

  lemma ShiftIsRepeatedDoubling(x: bv128, distance: nat)
    requires distance < WIDTH
    ensures Shift(x, distance) == ShiftLeft(x, distance)
  {
    ByteValue(distance);
    ShiftedIsRepeatedDoubling(x, Byte(distance));
    hide ShiftLeft, Byte;
  }

  // ----- Masks have exactly one bit -------------------------------------------------

  lemma MaskAhead(d: nat)
    ensures Mask(d + 3) == EightTimes(Mask(d))
    ensures Mask(d + 4) == SixteenTimes(Mask(d))
  {
    hide Twice, EightTimes, SixteenTimes;
    assert Mask(d + 1) == Twice(Mask(d));
    assert Mask(d + 2) == Twice(Mask(d + 1));
    assert Mask(d + 3) == Twice(Mask(d + 2));
    assert Mask(d + 4) == Twice(Mask(d + 3));
    TwiceFourTimes(Mask(d));
  }

  lemma MaskFarAhead(d: nat)
    ensures Mask(d + 16) == Mask(d) << 16
  {
    hide Mask;
    MaskAhead(d);
    MaskAhead(d + 4);
    MaskAhead(d + 8);
    MaskAhead(d + 12);
  }

  lemma HighestMask()
    ensures Mask(WIDTH - 1) != 0
  {
    assert Mask(0) == 1;
    hide Mask;
    assert Mask(64) == 0x1_0000_0000_0000_0000 by {
      assert Mask(32) == 0x1_0000_0000 by { MaskFarAhead(0); MaskFarAhead(16); }
      MaskFarAhead(32);
      MaskFarAhead(48);
    }
    assert Mask(112) == 0x1_0000_0000_0000_0000_0000_0000_0000 by {
      MaskFarAhead(64);
      MaskFarAhead(80);
      MaskFarAhead(96);
    }
    MaskAhead(112);
    MaskAhead(116);
    MaskAhead(120);
    MaskAhead(124);
  }

  lemma {:induction false} MaskNonzero(d: nat)
    requires d < WIDTH
    ensures Mask(d) != 0
    decreases WIDTH - d
  {
    if d == WIDTH - 1 {
      HighestMask();
    } else {
      MaskNonzero(d + 1);
      assert Mask(d + 1) == Twice(Mask(d));
    }
  }

  lemma {:induction false} MaskIsOneHot(d: nat)
    requires d < WIDTH
    ensures OneHot(Mask(d))
  {
    if d > 0 {
      MaskIsOneHot(d - 1);
      hide OneHot, Twice;
      TwiceOneHot(Mask(d - 1));
      MaskNonzero(d);
    }
  }

  // ----- What the bitmap operations do to each bit ----------------------------------

  lemma DoubledBit(x: bv128, d: nat)
    requires d < WIDTH
    ensures Bit(Twice(x), d) <==> d > 0 && Bit(x, d - 1)
  {
    if d > 0 {
      hide OneHot, Twice, Meet;
      MaskIsOneHot(d);
      MaskIsOneHot(d - 1);
      TwiceMeets(x, Mask(d - 1));
    }
  }

  // A shift moves every bit up by the distance and drops those that leave the word.
  lemma {:induction false} ShiftedBit(x: bv128, distance: nat, d: nat)
    requires d < WIDTH
    ensures Bit(ShiftLeft(x, distance), d) <==> d >= distance && Bit(x, d - distance)
    decreases distance
  {
    hide Bit, Twice;
    if distance > 0 {
      DoubledBit(ShiftLeft(x, distance - 1), d);
      if d > 0 {
        ShiftedBit(x, distance - 1, d - 1);
      }
    }
  }

  lemma MaskBit(k: nat, d: nat)
    requires k < WIDTH && d < WIDTH
    ensures Bit(Mask(k), d) <==> d == k
  {
    assert Bit(1, 0);
    hide Meet, OneHot, Twice;
    ShiftedBit(1, k, d);
    if d > k {
      MaskIsOneHot(d - k - 1);
      TwiceOneHot(Mask(d - k - 1));
    }
  }

  lemma LowestBit(d: nat)
    requires d < WIDTH
    ensures Bit(1, d) <==> d == 0
  {
    hide Bit;
    MaskBit(0, d);
  }

  lemma JoinedBit(x: bv128, y: bv128, d: nat)
    ensures Bit(Join(x, y), d) <==> Bit(x, d) || Bit(y, d)
  {
    hide Join, Meet;
    JoinMeets(x, y, Mask(d));
  }

  // ----- The set the bitmap stands for ----------------------------------------------

  ghost predicate IsHighest(history: set<nat>, highest: Option<nat>) {
    match highest
    case None => history == {}
    case Some(h) => h in history && forall s <- history :: s <= h
  }

  ghost predicate BitMatches(history: set<nat>, highest: nat, seen: bv128, d: nat)
    requires d <= highest
  {
    Bit(seen, d) <==> highest - d in history
  }

  ghost predicate BitsMatch(history: set<nat>, highest: nat, seen: bv128) {
    forall d: nat | d < WIDTH && d <= highest :: BitMatches(history, highest, seen, d)
  }

  // Seen before, or so far behind something seen that the window has forgotten it.
  ghost predicate Refused(history: set<nat>, sequence: nat) {
    sequence in history || exists h <- history :: h >= sequence + WIDTH
  }

  lemma FirstBit(sequence: nat)
    ensures BitsMatch({sequence}, sequence, 1)
  {
    hide Bit;
    forall d: nat | d < WIDTH && d <= sequence
      ensures BitMatches({sequence}, sequence, 1, d)
    {
      LowestBit(d);
    }
  }

  function Raised(seen: bv128, distance: nat): bv128 {
    if distance >= WIDTH then 1 else Join(ShiftLeft(seen, distance), 1)
  }

  lemma RaisedBits(history: set<nat>, highest: nat, seen: bv128, sequence: nat)
    requires BitsMatch(history, highest, seen) && IsHighest(history, Some(highest))
    requires sequence > highest
    ensures BitsMatch(history + {sequence}, sequence, Raised(seen, sequence - highest))
  {
    hide Bit, ShiftLeft, Join;
    var distance := sequence - highest;
    forall d: nat | d < WIDTH && d <= sequence
      ensures BitMatches(history + {sequence}, sequence, Raised(seen, distance), d)
    {
      LowestBit(d);
      if distance < WIDTH {
        JoinedBit(ShiftLeft(seen, distance), 1, d);
        ShiftedBit(seen, distance, d);
      }
      if d >= distance {
        assert BitMatches(history, highest, seen, d - distance);
      }
    }
  }

  lemma LoweredBits(history: set<nat>, highest: nat, seen: bv128, sequence: nat)
    requires BitsMatch(history, highest, seen)
    requires sequence <= highest
    ensures highest - sequence < WIDTH ==>
              BitsMatch(history + {sequence}, highest, Join(seen, Mask(highest - sequence)))
    ensures highest - sequence >= WIDTH ==> BitsMatch(history + {sequence}, highest, seen)
  {
    hide Bit, Mask, Join;
    var distance := highest - sequence;
    forall d: nat | d < WIDTH && d <= highest
      ensures distance < WIDTH ==> BitMatches(history + {sequence}, highest, Join(seen, Mask(distance)), d)
      ensures distance >= WIDTH ==> BitMatches(history + {sequence}, highest, seen, d)
    {
      assert BitMatches(history, highest, seen, d);
      if distance < WIDTH {
        JoinedBit(seen, Mask(distance), d);
        MaskBit(distance, d);
      }
    }
  }

  lemma OneShifted(distance: nat)
    requires distance < WIDTH
    ensures Shift(1, distance) == Mask(distance)
  {
    hide Shift, ShiftLeft;
    ShiftIsRepeatedDoubling(1, distance);
  }

  class ReplayWindow {
    var highest: Option<nat>
    var seen: bv128

    // The window stands for the set of numbers inserted so far.
    ghost predicate Records(history: set<nat>)
      reads this
    {
      IsHighest(history, highest) && (highest.Some? ==> BitsMatch(history, highest.value, seen))
    }

    constructor ()
      ensures Records({})
    {
      highest := None;
      seen := 0;
    }

    method Contains(sequence: nat, ghost history: set<nat>) returns (r: bool)
      requires Records(history)
      ensures r <==> Refused(history, sequence)
    {
      hide Mask, Meet, Shift, ShiftLeft;
      if highest.None? {
        return false;
      }
      if sequence > highest.value {
        return false;
      }
      var distance := highest.value - sequence;
      assert distance < WIDTH ==> BitMatches(history, highest.value, seen, distance);
      if distance >= WIDTH {
        return true;
      }
      OneShifted(distance);
      return Meet(seen, Shift(1, distance));
    }

    method Insert(sequence: nat, ghost history: set<nat>)
      requires Records(history)
      modifies this
      ensures Records(history + {sequence})
    {
      hide BitsMatch, Shift, ShiftLeft, Mask, Join;
      if highest.None? {
        highest := Some(sequence);
        seen := 1;
        FirstBit(sequence);
        assert history + {sequence} == {sequence};
      } else if sequence > highest.value {
        RaisedBits(history, highest.value, seen, sequence);
        var distance := sequence - highest.value;
        if distance >= WIDTH {
          seen := 1;
        } else {
          ShiftIsRepeatedDoubling(seen, distance);
          seen := Join(Shift(seen, distance), 1);
        }
        highest := Some(sequence);
      } else {
        LoweredBits(history, highest.value, seen, sequence);
        var distance := highest.value - sequence;
        if distance < WIDTH {
          OneShifted(distance);
          seen := Join(seen, Shift(1, distance));
        }
      }
    }
  }
}
