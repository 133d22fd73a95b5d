/** Text as Unicode scalar values, its UTF-8 and UTF-16 forms, and the order that
    canonical JSON puts on object keys (section 3.2.3 of RFC 8785): UTF-16 code units,
    compared one by one. */
module Texts {
  import opened ByteStrings

  type Scalar = c: int | 0 <= c < 0xD800 || 0xE000 <= c <= 0x10FFFF

  type Text = seq<Scalar>

  // ----- UTF-8 ----------------------------------------------------------------------

  function Utf8One(c: Scalar): Bytes {
    if c < 0x80 then [c]
    else if c < 0x800 then [0xC0 + c / 0x40, 0x80 + c % 0x40]
    else if c < 0x1_0000 then [0xE0 + c / 0x1000, 0x80 + c / 0x40 % 0x40, 0x80 + c % 0x40]
    else [0xF0 + c / 0x4_0000, 0x80 + c / 0x1000 % 0x40, 0x80 + c / 0x40 % 0x40, 0x80 + c % 0x40]
  }

  function Utf8(t: Text): Bytes {
    if t == [] then [] else Utf8One(t[0]) + Utf8(t[1..])
  }

  function LeadLength(lead: Byte): nat {
    if lead < 0x80 then 1 else if lead < 0xE0 then 2 else if lead < 0xF0 then 3 else 4
  }

  function ReadUtf8(raw: seq<int>): int {
    if |raw| == 1 then raw[0]
    else if |raw| == 2 then (raw[0] - 0xC0) * 0x40 + raw[1] - 0x80
    else if |raw| == 3 then (raw[0] - 0xE0) * 0x1000 + (raw[1] - 0x80) * 0x40 + raw[2] - 0x80
    else if |raw| == 4 then
      (raw[0] - 0xF0) * 0x4_0000 + (raw[1] - 0x80) * 0x1000 + (raw[2] - 0x80) * 0x40 + raw[3] - 0x80
    else 0
  }

  lemma Utf8OneLength(c: Scalar)
    ensures |Utf8One(c)| > 0 && |Utf8One(c)| == LeadLength(Utf8One(c)[0])
  {}

  lemma Utf8OneValue(c: Scalar)
    ensures ReadUtf8(Utf8One(c)) == c
  {
    assert c == c / 0x40 * 0x40 + c % 0x40;
    assert c / 0x40 == c / 0x1000 * 0x40 + c / 0x40 % 0x40;
    assert c / 0x1000 == c / 0x4_0000 * 0x40 + c / 0x1000 % 0x40;
  }

  lemma Utf8OneReadsBack(c: Scalar, d: Scalar, x: Bytes, y: Bytes)
    requires Utf8One(c) + x == Utf8One(d) + y
    ensures c == d && x == y
  {
    Utf8OneLength(c);
    Utf8OneLength(d);
    Utf8OneValue(c);
    Utf8OneValue(d);
    hide Utf8One, LeadLength, ReadUtf8;
    var a, b := Utf8One(c), Utf8One(d);
    assert (a + x)[0] == a[0] && (b + y)[0] == b[0];
    assert |a| == |b|;
    assert a == (a + x)[..|a|] && b == (b + y)[..|b|];
    assert x == (a + x)[|a|..] && y == (b + y)[|b|..];
  }

  lemma {:induction false} Utf8Injective(s: Text, t: Text)
    requires Utf8(s) == Utf8(t)
    ensures s == t
  {
    if s == [] || t == [] {
    } else {
      Utf8OneReadsBack(s[0], t[0], Utf8(s[1..]), Utf8(t[1..]));
      Utf8Injective(s[1..], t[1..]);
      assert s == [s[0]] + s[1..] && t == [t[0]] + t[1..];
    }
  }

  // ----- UTF-16 and the key order ---------------------------------------------------

  function Utf16One(c: Scalar): seq<int> {
    if c < 0x1_0000 then [c] else [0xD800 + (c - 0x1_0000) / 0x400, 0xDC00 + (c - 0x1_0000) % 0x400]
  }

  function Utf16(t: Text): seq<int> {
    if t == [] then [] else Utf16One(t[0]) + Utf16(t[1..])
  }

  // One unit for a scalar value of the basic plane, a surrogate pair for any other.
  lemma Utf16OneValue(c: Scalar)
    ensures var u := Utf16One(c);
            if c < 0x1_0000 then u == [c]
            else && |u| == 2 && 0xD800 <= u[0] < 0xDC00 <= u[1] < 0xE000
                 && c == 0x1_0000 + (u[0] - 0xD800) * 0x400 + (u[1] - 0xDC00)
  {}

  lemma Utf16OneReadsBack(c: Scalar, d: Scalar, x: seq<int>, y: seq<int>)
    requires Utf16One(c) + x == Utf16One(d) + y
    ensures c == d && x == y
  {
    var a, b := Utf16One(c), Utf16One(d);
    assert (a + x)[0] == a[0] && (b + y)[0] == b[0];
    assert |a| == |b|;
    assert a == (a + x)[..|a|] && b == (b + y)[..|b|];
    assert x == (a + x)[|a|..] && y == (b + y)[|b|..];
  }

  lemma {:induction false} Utf16Injective(s: Text, t: Text)
    requires Utf16(s) == Utf16(t)
    ensures s == t
  {
    if s == [] || t == [] {
    } else {
      Utf16OneReadsBack(s[0], t[0], Utf16(s[1..]), Utf16(t[1..]));
      Utf16Injective(s[1..], t[1..]);
      assert s == [s[0]] + s[1..] && t == [t[0]] + t[1..];
    }
  }

  predicate UnitsLess(a: seq<int>, b: seq<int>) {
    b != [] && (a == [] || a[0] < b[0] || (a[0] == b[0] && UnitsLess(a[1..], b[1..])))
  }

  lemma {:induction false} UnitsLessOrder(a: seq<int>, b: seq<int>, c: seq<int>)
    ensures !UnitsLess(a, a)
    ensures a == b || UnitsLess(a, b) || UnitsLess(b, a)
    ensures UnitsLess(a, b) && UnitsLess(b, c) ==> UnitsLess(a, c)
    decreases |a| + |b|
  {
    if a != [] && b != [] {
      UnitsLessOrder(a[1..], b[1..], if c == [] then [] else c[1..]);
      assert a == [a[0]] + a[1..] && b == [b[0]] + b[1..];
    } else if a != [] {
      UnitsLessOrder(a[1..], b, c);
    }
  }

  predicate KeyLess(s: Text, t: Text) {
    UnitsLess(Utf16(s), Utf16(t))
  }

  /** `a` comes first where the two differ: it ends there, or its unit is the smaller one. */
  ghost predicate FirstDifference(a: seq<int>, b: seq<int>, k: nat) {
    && k <= |a| && k < |b|
    && (forall i :: 0 <= i < k ==> a[i] == b[i])
    && (k == |a| || a[k] < b[k])
  }

  lemma {:induction false} UnitsLessExactly(a: seq<int>, b: seq<int>)
    ensures UnitsLess(a, b) <==> exists k: nat :: FirstDifference(a, b, k)
    decreases |a|
  {
    if a == [] || b == [] || a[0] != b[0] {
      assert UnitsLess(a, b) ==> FirstDifference(a, b, 0);
    } else {
      UnitsLessExactly(a[1..], b[1..]);
      if UnitsLess(a[1..], b[1..]) {
        var k: nat :| FirstDifference(a[1..], b[1..], k);
        assert forall i :: 0 < i < k + 1 ==> a[i] == a[1..][i - 1] == b[1..][i - 1] == b[i];
        assert FirstDifference(a, b, k + 1);
      }
      forall k: nat | FirstDifference(a, b, k)
        ensures UnitsLess(a, b)
      {
        assert k > 0 && forall i :: 0 <= i < k - 1 ==> a[1..][i] == a[i + 1] == b[i + 1] == b[1..][i];
        assert FirstDifference(a[1..], b[1..], k - 1);
      }
    }
  }

  /** At the first code unit at which the two differ, `s` has ended or its unit is smaller. */
  ghost predicate Precedes(s: Text, t: Text) {
    exists k: nat :: FirstDifference(Utf16(s), Utf16(t), k)
  }

  lemma KeyLessExactly(s: Text, t: Text)
    ensures KeyLess(s, t) <==> Precedes(s, t)
  {
    UnitsLessExactly(Utf16(s), Utf16(t));
  }

  // The key order is a strict total order on texts.
  lemma KeyOrder(s: Text, t: Text, u: Text)
    ensures !KeyLess(s, s)
    ensures s == t || KeyLess(s, t) || KeyLess(t, s)
    ensures KeyLess(s, t) && KeyLess(t, u) ==> KeyLess(s, u)
  {
    UnitsLessOrder(Utf16(s), Utf16(t), Utf16(u));
    if Utf16(s) == Utf16(t) {
      Utf16Injective(s, t);
    }
  }

  // ----- Sorting keys ---------------------------------------------------------------

  ghost predicate KeysSorted(keys: seq<Text>) {
    forall i, j :: 0 <= i < j < |keys| ==> KeyLess(keys[i], keys[j])
  }

  function InsertKey(k: Text, keys: seq<Text>): (r: seq<Text>)
    ensures multiset(r) == multiset(keys) + multiset{k}
  {
    if keys == [] then [k]
    else
      assert keys == [keys[0]] + keys[1..];
      if KeyLess(keys[0], k) then [keys[0]] + InsertKey(k, keys[1..])
      else [k] + keys
  }

  function SortKeys(keys: seq<Text>): (r: seq<Text>)
    ensures multiset(r) == multiset(keys)
    ensures forall k :: k in r <==> k in keys
  {
    if keys == [] then []
    else
      assert keys == [keys[0]] + keys[1..];
      var r := InsertKey(keys[0], SortKeys(keys[1..]));
      assert forall k :: k in r <==> k in multiset(r);
      assert forall k :: k in keys <==> k in multiset(keys);
      r
  }

  ghost predicate DistinctKeys(keys: seq<Text>) {
    forall i, j :: 0 <= i < j < |keys| ==> keys[i] != keys[j]
  }

  lemma {:induction false} InsertKeepsSorted(k: Text, keys: seq<Text>)
    requires KeysSorted(keys) && k !in keys
    ensures KeysSorted(InsertKey(k, keys))
    decreases |keys|
  {
    hide KeyLess;
    var r := InsertKey(k, keys);
    if keys != [] {
      var first, rest := keys[0], keys[1..];
      KeyOrder(first, k, k);
      if KeyLess(first, k) {
        InsertKeepsSorted(k, rest);
        var tail := InsertKey(k, rest);
        forall j | 0 <= j < |tail|
          ensures KeyLess(first, tail[j])
        {
          assert tail[j] in multiset(tail);
          assert tail[j] == k || tail[j] in rest;
        }
        SortedCons(first, tail);
      } else {
        forall j | 0 <= j < |keys|
          ensures KeyLess(k, keys[j])
        {
          KeyOrder(k, first, keys[j]);
        }
        SortedCons(k, keys);
      }
    }
  }

  lemma SortedCons(k: Text, keys: seq<Text>)
    requires KeysSorted(keys) && forall j :: 0 <= j < |keys| ==> KeyLess(k, keys[j])
    ensures KeysSorted([k] + keys)
  {
    hide KeyLess;
  }

  lemma {:induction false} SortKeysSorts(keys: seq<Text>)
    requires DistinctKeys(keys)
    ensures KeysSorted(SortKeys(keys))
    decreases |keys|
  {
    if keys != [] {
      SortKeysSorts(keys[1..]);
      assert keys[0] !in keys[1..];
      InsertKeepsSorted(keys[0], SortKeys(keys[1..]));
    }
  }

  // There is only one sorted order of a set of keys.
  lemma {:induction false} SortedOrderIsUnique(a: seq<Text>, b: seq<Text>)
    requires KeysSorted(a) && KeysSorted(b)
    requires forall k :: k in a <==> k in b
    ensures a == b
    decreases |a|
  {
    hide KeyLess;
    EmptyTogether(a, b);
    if a != [] {
      assert a[0] in b;
      LeastIsFirst(a, b);
      assert a == [a[0]] + a[1..] && b == [b[0]] + b[1..];
      forall k
        ensures k in a[1..] <==> k in b[1..]
      {
        KeyOrder(a[0], a[0], a[0]);
        assert k in a <==> k == a[0] || k in a[1..];
        assert k in b <==> k == b[0] || k in b[1..];
        assert a[0] !in a[1..] && b[0] !in b[1..];
      }
      SortedOrderIsUnique(a[1..], b[1..]);
    }
  }

  lemma EmptyTogether(a: seq<Text>, b: seq<Text>)
    requires forall k :: k in a <==> k in b
    ensures a == [] <==> b == []
  {
    if a != [] {
      assert a[0] in b;
    }
    if b != [] {
      assert b[0] in a;
    }
  }

  lemma LeastIsFirst(a: seq<Text>, b: seq<Text>)
    requires KeysSorted(a) && KeysSorted(b) && a != [] && b != []
    requires forall k :: k in a <==> k in b
    ensures a[0] == b[0]
  {
    hide KeyLess;
    if a[0] != b[0] {
      assert a[0] in b && b[0] in a;
      KeyOrder(a[0], b[0], a[0]);
    }
  }
}
