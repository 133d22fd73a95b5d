/** OPEN metadata: the validation of a JSON value and its canonical text. Whether a text
    is in normal form and assigned is a parameter, `unicode`. */
module Metadata {
  import opened ByteStrings
  import opened Texts

  const MAX_METADATA: nat := 4_096
  const MAX_DEPTH: nat := 4
  const MAX_NODES: nat := 64
  const MAX_KEYS: nat := 64
  const MAX_ARRAY: nat := 32
  const MAX_KEY_BYTES: nat := 64
  const MAX_STRING_BYTES: nat := 512
  const MAX_SAFE_INTEGER: int := 9_007_199_254_740_991

  /** An object lists its members in insertion order. `OtherNumber` is any number that is
      not a 64-bit integer; validation refuses it, so it is never printed. */
  datatype Value =
    | Null
    | Bool(flag: bool)
    | Integer(i: int)
    | OtherNumber
    | String(text: Text)
    | Array(items: seq<Value>)
    | Object(keys: seq<Text>, items: seq<Value>)

  // What every parsed value satisfies: objects have one item for each of their distinct keys.
  ghost predicate WellFormed(v: Value) {
    match v
    case Array(items) => forall x <- items :: WellFormed(x)
    case Object(keys, items) => |keys| == |items| && DistinctKeys(keys) && forall x <- items :: WellFormed(x)
    case _ => true
  }

  // ----- Validation -----------------------------------------------------------------

  predicate ValidText(t: Text, maxBytes: nat, allowEmpty: bool, unicode: Text -> bool) {
    && |Utf8(t)| <= maxBytes
    && (allowEmpty || t != [])
    && unicode(t)
    && forall c <- t :: !(c <= 0x1F || 0x7F <= c <= 0x9F)
  }

  // A text is refused for its length in bytes, for being empty, for its form or for a control character.
  lemma TextRefusedExactly(t: Text, maxBytes: nat, allowEmpty: bool, unicode: Text -> bool)
    ensures !ValidText(t, maxBytes, allowEmpty, unicode) <==>
            || |Utf8(t)| > maxBytes
            || (|t| == 0 && !allowEmpty)
            || !unicode(t)
            || exists i :: 0 <= i < |t| && (t[i] < 0x20 || 0x7E < t[i] < 0xA0)
  {
    hide Utf8;
    forall i | 0 <= i < |t| ensures t[i] in t {}
    if c :| c in t && (c <= 0x1F || 0x7F <= c <= 0x9F) {
      var i :| 0 <= i < |t| && t[i] == c;
    }
  }

  function Nodes(v: Value): nat {
    if v.Array? || v.Object? then 1 + NodesAll(v.items) else 1
  }

  function NodesAll(vs: seq<Value>): nat {
    if vs == [] then 0 else NodesAll(vs[..|vs| - 1]) + Nodes(vs[|vs| - 1])
  }

  function Height(v: Value): nat {
    if v.Array? || v.Object? then 1 + HeightAll(v.items) else 1
  }

  function HeightAll(vs: seq<Value>): nat {
    if vs == [] then 0
    else
      var front, last := HeightAll(vs[..|vs| - 1]), Height(vs[|vs| - 1]);
      if front < last then last else front
  }

  ghost predicate ItemsOk(v: Value, unicode: Text -> bool) {
    match v
    case Null => true
    case Bool(_) => true
    case Integer(i) => -9_007_199_254_740_991 <= i <= 9_007_199_254_740_991
    case OtherNumber => false
    case String(t) => ValidText(t, 512, true, unicode)
    case Array(items) => |items| <= 32 && forall x <- items :: ItemsOk(x, unicode)
    case Object(keys, items) =>
      && |keys| <= 64
      && (forall k <- keys :: ValidText(k, 64, false, unicode))
      && forall x <- items :: ItemsOk(x, unicode)
  }

  lemma {:induction false} NodesOfPrefix(vs: seq<Value>, i: nat)
    requires i < |vs|
    ensures NodesAll(vs[..i]) + Nodes(vs[i]) == NodesAll(vs[..i + 1]) <= NodesAll(vs)
    decreases |vs|
  {
    assert vs[..i + 1][..i] == vs[..i];
    if i + 1 == |vs| {
      assert vs[..i + 1] == vs;
    } else {
      var front := vs[..|vs| - 1];
      NodesOfPrefix(front, i);
      assert front[..i + 1] == vs[..i + 1];
    }
  }

  lemma {:induction false} HeightBound(vs: seq<Value>, h: nat)
    ensures HeightAll(vs) <= h <==> forall i :: 0 <= i < |vs| ==> Height(vs[i]) <= h
    decreases |vs|
  {
    if vs != [] {
      HeightBound(vs[..|vs| - 1], h);
      assert forall i :: 0 <= i < |vs| - 1 ==> vs[..|vs| - 1][i] == vs[i];
    }
  }

  // What the counter and the depth leave for a value, and for the items of a container.
  ghost predicate Fits(v: Value, depth: nat, nodes: int, unicode: Text -> bool) {
    depth + Height(v) <= 5 && nodes + Nodes(v) <= 64 && ItemsOk(v, unicode)
  }

  ghost predicate ItemsFit(vs: seq<Value>, depth: nat, nodes: int, unicode: Text -> bool) {
    && nodes + NodesAll(vs) <= 64
    && forall i :: 0 <= i < |vs| ==> depth + Height(vs[i]) <= 5 && ItemsOk(vs[i], unicode)
  }

  ghost predicate KeysFit(keys: seq<Text>, n: nat, unicode: Text -> bool)
    requires n <= |keys|
  {
    forall i :: 0 <= i < n ==> ValidText(keys[i], 64, false, unicode)
  }

  lemma NothingFits(vs: seq<Value>, depth: nat, nodes: int, unicode: Text -> bool)
    requires nodes <= MAX_NODES
    ensures NodesAll(vs[..0]) == 0 && ItemsFit(vs[..0], depth, nodes, unicode)
  {}

  // Fitting items one at a time, each starting where the counter was left.
  lemma NextItemFits(vs: seq<Value>, i: nat, depth: nat, nodes: int, unicode: Text -> bool)
    requires i < |vs|
    ensures ItemsFit(vs[..i + 1], depth, nodes, unicode) <==>
            && ItemsFit(vs[..i], depth, nodes, unicode)
            && Fits(vs[i], depth, nodes + NodesAll(vs[..i]), unicode)
    ensures ItemsFit(vs, depth, nodes, unicode) ==> ItemsFit(vs[..i + 1], depth, nodes, unicode)
  {
    hide ItemsOk, Height, Nodes, NodesAll;
    NodesOfPrefix(vs, i);
    assert forall j :: 0 <= j < i ==> vs[..i][j] == vs[..i + 1][j] == vs[j];
    assert vs[..i + 1][i] == vs[i];
  }

  lemma NextKeyFits(keys: seq<Text>, i: nat, unicode: Text -> bool)
    requires i < |keys|
    ensures KeysFit(keys, i + 1, unicode) <==> KeysFit(keys, i, unicode) && ValidText(keys[i], 64, false, unicode)
    ensures KeysFit(keys, |keys|, unicode) ==> KeysFit(keys, i + 1, unicode)
  {
    hide ValidText;
  }

  /** The validator, threading its node counter. It succeeds exactly on the trees within
      the limits, although it stops at the first violation. */
  method Validate(v: Value, depth: nat, nodes: int, unicode: Text -> bool) returns (ok: bool, after: int)
    requires WellFormed(v)
    ensures ok <==> Fits(v, depth, nodes, unicode)
    ensures ok ==> after == nodes + Nodes(v)
    decreases v, 1
  {
    if depth > MAX_DEPTH {
      return false, nodes;
    }
    after := nodes + 1;
    if after > MAX_NODES {
      return false, after;
    }
    match v {
      case Null => return true, after;
      case Bool(_) => return true, after;
      case Integer(i) => return -MAX_SAFE_INTEGER <= i <= MAX_SAFE_INTEGER, after;
      case OtherNumber => return false, after;
      case String(t) =>
        ok := ValidText(t, MAX_STRING_BYTES, true, unicode);
      case Array(items) =>
        HeightBound(items, if depth < MAX_DEPTH then MAX_DEPTH - depth else 0);
        if |items| > MAX_ARRAY {
          return false, after;
        }
        ok, after := ValidateArray(items, v, depth, after, unicode);
      case Object(keys, items) =>
        HeightBound(items, if depth < MAX_DEPTH then MAX_DEPTH - depth else 0);
        if |keys| > MAX_KEYS {
          return false, after;
        }
        ok, after := ValidateObject(keys, items, v, depth, after, unicode);
    }
  }

  method ValidateArray(items: seq<Value>, ghost v: Value, depth: nat, nodes: int, unicode: Text -> bool)
    returns (ok: bool, after: int)
    requires v.Array? && v.items == items && nodes <= MAX_NODES
    requires forall x <- items :: WellFormed(x)
    ensures ok <==> ItemsFit(items, depth + 1, nodes, unicode)
    ensures ok ==> after == nodes + NodesAll(items)
    decreases v, 0
  {
    NothingFits(items, depth + 1, nodes, unicode);
    hide ItemsFit, Fits, WellFormed, Nodes, NodesAll;
    after := nodes;
    var i := 0;
    while i < |items|
      invariant 0 <= i <= |items|
      invariant after == nodes + NodesAll(items[..i])
      invariant ItemsFit(items[..i], depth + 1, nodes, unicode)
    {
      NodesOfPrefix(items, i);
      NextItemFits(items, i, depth + 1, nodes, unicode);
      ok, after := Validate(items[i], depth + 1, after, unicode);
      if !ok {
        return false, after;
      }
      i := i + 1;
    }
    assert items[..i] == items;
    return true, after;
  }

  method ValidateObject(keys: seq<Text>, items: seq<Value>, ghost v: Value, depth: nat, nodes: int,
                        unicode: Text -> bool)
    returns (ok: bool, after: int)
    requires v.Object? && v.items == items && nodes <= MAX_NODES && |keys| == |items|
    requires forall x <- items :: WellFormed(x)
    ensures ok <==> ItemsFit(items, depth + 1, nodes, unicode) && KeysFit(keys, |keys|, unicode)
    ensures ok ==> after == nodes + NodesAll(items)
    decreases v, 0
  {
    NothingFits(items, depth + 1, nodes, unicode);
    assert KeysFit(keys, 0, unicode);
    hide ItemsFit, Fits, WellFormed, Nodes, NodesAll, ValidText, KeysFit;
    after := nodes;
    var i := 0;
    while i < |items|
      invariant 0 <= i <= |items|
      invariant after == nodes + NodesAll(items[..i])
      invariant ItemsFit(items[..i], depth + 1, nodes, unicode) && KeysFit(keys, i, unicode)
    {
      NextKeyFits(keys, i, unicode);
      if !ValidText(keys[i], MAX_KEY_BYTES, false, unicode) {
        return false, after;
      }
      NodesOfPrefix(items, i);
      NextItemFits(items, i, depth + 1, nodes, unicode);
      ok, after := Validate(items[i], depth + 1, after, unicode);
      if !ok {
        return false, after;
      }
      i := i + 1;
    }
    assert items[..i] == items;
    return true, after;
  }

  // ----- Canonical text -------------------------------------------------------------

  const QUOTE: Byte := 0x22
  const BACKSLASH: Byte := 0x5C
  const COMMA: Byte := 0x2C
  const COLON: Byte := 0x3A
  const MINUS: Byte := 0x2D

  function EscapeOne(b: Byte): Bytes {
    if b == 0x22 || b == 0x5C then [0x5C, b] else [b]
  }

  function Escape(raw: Bytes): Bytes {
    if raw == [] then [] else EscapeOne(raw[0]) + Escape(raw[1..])
  }

  function Quoted(t: Text): Bytes {
    [0x22] + Escape(Utf8(t)) + [0x22]
  }

  function Digits(n: nat): (r: Bytes)
    ensures |r| > 0 && forall i :: 0 <= i < |r| ==> 0x30 <= r[i] <= 0x39
  {
    if n < 10 then [0x30 + n] else Digits(n / 10) + [0x30 + n % 10]
  }

  function Decimal(i: int): Bytes {
    if i < 0 then [0x2D] + Digits(-i) else Digits(i)
  }

  function IndexOf(keys: seq<Text>, k: Text): (r: nat)
    requires k in keys
    ensures r < |keys| && keys[r] == k
  {
    if keys[0] == k then 0 else 1 + IndexOf(keys[1..], k)
  }

  function Print(v: Value): Bytes
    requires WellFormed(v)
    decreases v, 2
  {
    match v
    case Null => [0x6E, 0x75, 0x6C, 0x6C]
    case Bool(flag) => if flag then [0x74, 0x72, 0x75, 0x65] else [0x66, 0x61, 0x6C, 0x73, 0x65]
    case Integer(i) => Decimal(i)
    case OtherNumber => []
    case String(t) => Quoted(t)
    case Array(items) => [0x5B] + PrintFrom(v, 0) + [0x5D]
    case Object(keys, items) => [0x7B] + PrintMembers(v, SortKeys(keys), 0) + [0x7D]
  }

  // The items of an array from index `i` on, with the commas before them.
  function PrintFrom(v: Value, i: nat): Bytes
    requires WellFormed(v) && v.Array? && i <= |v.items|
    decreases v, 1, |v.items| - i
  {
    if i == |v.items| then []
    else (if i == 0 then [] else [0x2C]) + Print(v.items[i]) + PrintFrom(v, i + 1)
  }

  ghost predicate Ordered(v: Value, order: seq<Text>) {
    v.Object? && WellFormed(v) && forall k <- order :: k in v.keys
  }

  // The members of an object in the given order, likewise.
  function PrintMembers(v: Value, order: seq<Text>, i: nat): Bytes
    requires WellFormed(v) && v.Object? && i <= |order| && Ordered(v, order)
    decreases v, 1, |order| - i
  {
    if i == |order| then []
    else
      (if i == 0 then [] else [0x2C])
      + Quoted(order[i]) + [0x3A] + Print(v.items[IndexOf(v.keys, order[i])])
      + PrintMembers(v, order, i + 1)
  }
}
