/** Canonical metadata text: the printer, that it gives two values the same text exactly
    when they are the same JSON value, and the check of received metadata against it. */
module Canonical {
  import opened Basics
  import opened ByteStrings
  import opened Texts
  import opened Metadata

  function Separator(i: nat): Bytes {
    if i == 0 then [] else [COMMA]
  }

  // ----- The printer ----------------------------------------------------------------

  method AppendString(output: Bytes, t: Text) returns (out: Bytes)
    ensures out == output + Quoted(t)
  {
    hide Escape, Utf8, EscapeOne;
    out := output + [QUOTE];
    var raw := Utf8(t);
    var i := 0;
    while i < |raw|
      invariant 0 <= i <= |raw|
      invariant out + Escape(raw[i..]) == output + [QUOTE] + Escape(raw)
    {
      EscapeStep(out, raw, i);
      if raw[i] == QUOTE || raw[i] == BACKSLASH {
        out := out + [BACKSLASH];
      }
      out := out + [raw[i]];
      i := i + 1;
    }
    EscapeStep(out, raw, i);
    out := out + [QUOTE];
    Wrap(output, [QUOTE], Escape(raw), [QUOTE]);
  }

  lemma EscapeStep(before: Bytes, raw: Bytes, i: nat)
    requires i <= |raw|
    ensures i == |raw| ==> before + Escape(raw[i..]) == before
    ensures i < |raw| ==>
              before + Escape(raw[i..])
              == (if raw[i] == QUOTE || raw[i] == BACKSLASH then before + [BACKSLASH] + [raw[i]] else before + [raw[i]])
                 + Escape(raw[i + 1..])
  {
    if i < |raw| {
      assert raw[i..][1..] == raw[i + 1..];
      assert Escape(raw[i..]) == EscapeOne(raw[i]) + Escape(raw[i + 1..]);
      hide Escape;
    }
  }

  method AppendValue(output: Bytes, v: Value) returns (out: Bytes)
    requires WellFormed(v)
    ensures out == output + Print(v)
    decreases v, 1
  {
    match v {
      case Null => out := output + [0x6E, 0x75, 0x6C, 0x6C];
      case Bool(flag) =>
        out := output + (if flag then [0x74, 0x72, 0x75, 0x65] else [0x66, 0x61, 0x6C, 0x73, 0x65]);
      case Integer(i) => out := output + Decimal(i);
      case OtherNumber => out := output;
      case String(t) => out := AppendString(output, t);
      case Array(items) => out := AppendArray(output, v);
      case Object(keys, items) => out := AppendObject(output, v);
    }
  }

  method AppendArray(output: Bytes, v: Value) returns (out: Bytes)
    requires WellFormed(v) && v.Array?
    ensures out == output + Print(v)
    decreases v, 0
  {
    hide Print, PrintFrom, Separator;
    ghost var whole := output + [0x5B] + PrintFrom(v, 0);
    out := output + [0x5B];
    var i := 0;
    while i < |v.items|
      invariant 0 <= i <= |v.items|
      invariant out + PrintFrom(v, i) == whole
    {
      ItemStep(out, v, i);
      out := out + Separator(i);
      out := AppendValue(out, v.items[i]);
      i := i + 1;
    }
    ArrayDone(output, out, v);
    out := out + [0x5D];
  }

  method AppendObject(output: Bytes, v: Value) returns (out: Bytes)
    requires WellFormed(v) && v.Object?
    ensures out == output + Print(v)
    decreases v, 0
  {
    hide Print, PrintMembers, Separator, Quoted;
    var order := SortKeys(v.keys);
    ghost var whole := output + [0x7B] + PrintMembers(v, order, 0);
    out := output + [0x7B];
    var i := 0;
    while i < |order|
      invariant 0 <= i <= |order|
      invariant out + PrintMembers(v, order, i) == whole
    {
      MemberStep(out, v, order, i);
      out := out + Separator(i);
      out := AppendString(out, order[i]);
      out := out + [COLON];
      out := AppendValue(out, v.items[IndexOf(v.keys, order[i])]);
      i := i + 1;
    }
    ObjectDone(output, out, v);
    out := out + [0x7D];
  }

  lemma ItemStep(before: Bytes, v: Value, i: nat)
    requires WellFormed(v) && v.Array? && i < |v.items|
    ensures before + PrintFrom(v, i) == before + Separator(i) + Print(v.items[i]) + PrintFrom(v, i + 1)
  {
    assert PrintFrom(v, i) == Separator(i) + Print(v.items[i]) + PrintFrom(v, i + 1);
    hide Print, PrintFrom, Separator;
  }

  lemma MemberStep(before: Bytes, v: Value, order: seq<Text>, i: nat)
    requires Ordered(v, order) && i < |order|
    ensures var item := v.items[IndexOf(v.keys, order[i])];
            before + PrintMembers(v, order, i)
            == before + Separator(i) + Quoted(order[i]) + [COLON] + Print(item) + PrintMembers(v, order, i + 1)
  {
    var item := v.items[IndexOf(v.keys, order[i])];
    assert PrintMembers(v, order, i)
      == Separator(i) + Quoted(order[i]) + [COLON] + Print(item) + PrintMembers(v, order, i + 1);
    hide Print, PrintMembers, Separator, Quoted;
    Attach(before, Separator(i), Quoted(order[i]), [COLON], Print(item), PrintMembers(v, order, i + 1));
  }

  lemma Attach(x: Bytes, a: Bytes, b: Bytes, c: Bytes, d: Bytes, e: Bytes)
    ensures x + (a + b + c + d + e) == x + a + b + c + d + e
  {}

  lemma ArrayDone(output: Bytes, out: Bytes, v: Value)
    requires WellFormed(v) && v.Array?
    requires out + PrintFrom(v, |v.items|) == output + [0x5B] + PrintFrom(v, 0)
    ensures out + [0x5D] == output + Print(v)
  {
    assert PrintFrom(v, |v.items|) == [];
    assert Print(v) == [0x5B] + PrintFrom(v, 0) + [0x5D];
    hide Print, PrintFrom;
    assert out + [] == out;
    Wrap(output, [0x5B], PrintFrom(v, 0), [0x5D]);
  }

  lemma ObjectDone(output: Bytes, out: Bytes, v: Value)
    requires WellFormed(v) && v.Object?
    requires out + PrintMembers(v, SortKeys(v.keys), |SortKeys(v.keys)|)
             == output + [0x7B] + PrintMembers(v, SortKeys(v.keys), 0)
    ensures out + [0x7D] == output + Print(v)
  {
    var order := SortKeys(v.keys);
    assert PrintMembers(v, order, |order|) == [];
    assert Print(v) == [0x7B] + PrintMembers(v, order, 0) + [0x7D];
    hide Print, PrintMembers;
    assert out + [] == out;
    Wrap(output, [0x7B], PrintMembers(v, order, 0), [0x7D]);
  }

  lemma Wrap(x: Bytes, a: Bytes, b: Bytes, c: Bytes)
    ensures x + a + b + c == x + (a + b + c)
  {}

  // ----- Reading printed text back --------------------------------------------------

  lemma SplitSame(a: Bytes, b: Bytes, x: Bytes, y: Bytes)
    requires a + x == b + y && |a| == |b|
    ensures a == b && x == y
  {
    assert a == (a + x)[..|a|] && b == (b + y)[..|b|];
    assert x == (a + x)[|a|..] && y == (b + y)[|b|..];
  }

  lemma EscapeOneReadsBack(c: Byte, d: Byte, x: Bytes, y: Bytes)
    requires EscapeOne(c) + x == EscapeOne(d) + y
    ensures c == d && x == y
  {
    var a, b := EscapeOne(c), EscapeOne(d);
    assert (a + x)[0] == a[0] && (b + y)[0] == b[0];
    SplitSame(a, b, x, y);
  }

  lemma {:induction false} EscapeReadsBack(a: Bytes, b: Bytes, x: Bytes, y: Bytes)
    requires Escape(a) + ([QUOTE] + x) == Escape(b) + ([QUOTE] + y)
    ensures a == b && x == y
    decreases |a|
  {
    EscapeStops(a, x);
    EscapeStops(b, y);
    if a == [] || b == [] {
      SplitSame([QUOTE], [QUOTE], x, y);
    } else {
      var l, r := Escape(a[1..]) + ([QUOTE] + x), Escape(b[1..]) + ([QUOTE] + y);
      assert Escape(a) + ([QUOTE] + x) == EscapeOne(a[0]) + l;
      assert Escape(b) + ([QUOTE] + y) == EscapeOne(b[0]) + r;
      EscapeOneReadsBack(a[0], b[0], l, r);
      EscapeReadsBack(a[1..], b[1..], x, y);
      assert a == [a[0]] + a[1..] && b == [b[0]] + b[1..];
    }
  }

  lemma EscapeStops(a: Bytes, x: Bytes)
    ensures (Escape(a) + ([QUOTE] + x))[0] == QUOTE <==> a == []
    ensures a == [] ==> Escape(a) + ([QUOTE] + x) == [QUOTE] + x
  {}

  lemma QuotedForm(t: Text, x: Bytes)
    ensures Quoted(t) + x == [QUOTE] + (Escape(Utf8(t)) + ([QUOTE] + x))
  {
    hide Escape, Utf8;
  }

  lemma QuotedReadsBack(s: Text, t: Text, x: Bytes, y: Bytes)
    requires Quoted(s) + x == Quoted(t) + y
    ensures s == t && x == y
  {
    hide Escape, Utf8, Quoted;
    QuotedForm(s, x);
    QuotedForm(t, y);
    var l, r := Escape(Utf8(s)) + ([QUOTE] + x), Escape(Utf8(t)) + ([QUOTE] + y);
    SplitSame([QUOTE], [QUOTE], l, r);
    EscapeReadsBack(Utf8(s), Utf8(t), x, y);
    Utf8Injective(s, t);
  }

  // What can follow a value.
  predicate Ends(x: Bytes) {
    x == [] || x[0] == COMMA || x[0] == 0x5D || x[0] == 0x7D
  }

  function DigitsValue(raw: Bytes): int {
    if raw == [] then 0 else DigitsValue(raw[..|raw| - 1]) * 10 + (raw[|raw| - 1] as int - 0x30)
  }

  lemma {:induction false} DigitsReadBack(n: nat)
    ensures DigitsValue(Digits(n)) == n
  {
    var raw := Digits(n);
    if n < 10 {
      assert raw[..0] == [];
    } else {
      assert raw[..|raw| - 1] == Digits(n / 10);
      DigitsReadBack(n / 10);
    }
  }

  function LeadingDigits(raw: Bytes): nat {
    if raw != [] && 0x30 <= raw[0] <= 0x39 then 1 + LeadingDigits(raw[1..]) else 0
  }

  lemma {:induction false} DigitsRun(a: Bytes, x: Bytes)
    requires Ends(x) && forall i :: 0 <= i < |a| ==> 0x30 <= a[i] <= 0x39
    ensures LeadingDigits(a + x) == |a|
    decreases |a|
  {
    if a == [] {
      assert a + x == x;
    } else {
      assert (a + x)[1..] == a[1..] + x;
      DigitsRun(a[1..], x);
    }
  }

  lemma DigitsEnd(n: nat, m: nat, x: Bytes, y: Bytes)
    requires Ends(x) && Ends(y) && Digits(n) + x == Digits(m) + y
    ensures n == m && x == y
  {
    DigitsReadBack(n);
    DigitsReadBack(m);
    hide Digits, DigitsValue;
    DigitsRun(Digits(n), x);
    DigitsRun(Digits(m), y);
    SplitSame(Digits(n), Digits(m), x, y);
  }

  lemma DecimalForm(i: int, x: Bytes)
    ensures i < 0 ==> Decimal(i) + x == [MINUS] + (Digits(-i) + x)
    ensures (Decimal(i) + x)[0] == MINUS <==> i < 0
  {
    hide Digits;
    if i >= 0 {
      assert (Digits(i) + x)[0] == Digits(i)[0];
    }
  }

  lemma DecimalEnds(i: int, j: int, x: Bytes, y: Bytes)
    requires Ends(x) && Ends(y) && Decimal(i) + x == Decimal(j) + y
    ensures i == j && x == y
  {
    DecimalForm(i, x);
    DecimalForm(j, y);
    if i < 0 {
      hide Digits, Decimal;
      SplitSame([MINUS], [MINUS], Digits(-i) + x, Digits(-j) + y);
      DigitsEnd(-i, -j, x, y);
    } else {
      hide Digits;
      DigitsEnd(i, j, x, y);
    }
  }

  // ----- The same JSON value --------------------------------------------------------

  // Arrays agree item by item; objects have the same keys and agree key by key.
  ghost predicate Same(v: Value, w: Value)
    requires WellFormed(v) && WellFormed(w)
    decreases v
  {
    match v
    case Array(items) =>
      w.Array? && |items| == |w.items| && forall i :: 0 <= i < |items| ==> Same(items[i], w.items[i])
    case Object(keys, items) =>
      && w.Object?
      && (forall k :: k in keys <==> k in w.keys)
      && (forall k :: k in keys && k in w.keys ==> Same(items[IndexOf(keys, k)], w.items[IndexOf(w.keys, k)]))
    case _ => v == w
  }

  datatype Kind = NullKind | TrueKind | FalseKind | NumberKind | StringKind | ArrayKind | ObjectKind | NoKind

  function KindOf(v: Value): Kind {
    match v
    case Null => NullKind
    case Bool(flag) => if flag then TrueKind else FalseKind
    case Integer(_) => NumberKind
    case OtherNumber => NoKind
    case String(_) => StringKind
    case Array(_) => ArrayKind
    case Object(_, _) => ObjectKind
  }

  function KindOfByte(b: Byte): Kind {
    if b == 0x6E then NullKind
    else if b == 0x74 then TrueKind
    else if b == 0x66 then FalseKind
    else if b == MINUS || 0x30 <= b <= 0x39 then NumberKind
    else if b == QUOTE then StringKind
    else if b == 0x5B then ArrayKind
    else if b == 0x7B then ObjectKind
    else NoKind
  }

  lemma FirstByte(v: Value, unicode: Text -> bool)
    requires WellFormed(v) && ItemsOk(v, unicode)
    ensures Print(v) != [] && KindOfByte(Print(v)[0]) == KindOf(v)
  {}

  lemma ItemOk(v: Value, i: nat, unicode: Text -> bool)
    requires WellFormed(v) && ItemsOk(v, unicode) && (v.Array? || v.Object?) && i < |v.items|
    ensures WellFormed(v.items[i]) && ItemsOk(v.items[i], unicode)
  {}

  lemma ArrayForm(v: Value, x: Bytes)
    requires WellFormed(v) && v.Array?
    ensures Print(v) + x == [0x5B] + (PrintFrom(v, 0) + ([0x5D] + x))
  {
    hide PrintFrom;
  }

  lemma ObjectForm(v: Value, x: Bytes)
    requires WellFormed(v) && v.Object?
    ensures Print(v) + x == [0x7B] + (PrintMembers(v, SortKeys(v.keys), 0) + ([0x7D] + x))
  {
    hide PrintMembers, SortKeys;
  }

  lemma ItemForm(v: Value, i: nat, x: Bytes)
    requires WellFormed(v) && v.Array? && i < |v.items|
    ensures PrintFrom(v, i) + x == Separator(i) + (Print(v.items[i]) + (PrintFrom(v, i + 1) + x))
  {
    assert PrintFrom(v, i) == Separator(i) + Print(v.items[i]) + PrintFrom(v, i + 1);
    hide Print, PrintFrom, Separator;
  }

  lemma MemberForm(v: Value, order: seq<Text>, i: nat, x: Bytes)
    requires Ordered(v, order) && i < |order|
    ensures PrintMembers(v, order, i) + x
            == Separator(i) + (Quoted(order[i]) + ([COLON] + (Print(v.items[IndexOf(v.keys, order[i])])
                                                              + (PrintMembers(v, order, i + 1) + x))))
  {
    assert PrintMembers(v, order, i)
      == Separator(i) + Quoted(order[i]) + [COLON] + Print(v.items[IndexOf(v.keys, order[i])])
         + PrintMembers(v, order, i + 1);
    hide Print, PrintMembers, Separator, Quoted;
    Regroup(Separator(i), Quoted(order[i]), [COLON], Print(v.items[IndexOf(v.keys, order[i])]),
            PrintMembers(v, order, i + 1), x);
  }

  lemma Regroup(a: Bytes, b: Bytes, c: Bytes, d: Bytes, e: Bytes, x: Bytes)
    ensures a + b + c + d + e + x == a + (b + (c + (d + (e + x))))
  {}

  // From index `i` on, an array's text starts with its closing bracket exactly at the end.
  lemma ArrayStops(v: Value, i: nat, x: Bytes, unicode: Text -> bool)
    requires WellFormed(v) && ItemsOk(v, unicode) && v.Array? && i <= |v.items|
    ensures (PrintFrom(v, i) + ([0x5D] + x))[0] == 0x5D <==> i == |v.items|
    ensures i == |v.items| ==> PrintFrom(v, i) + ([0x5D] + x) == [0x5D] + x
    ensures i > 0 ==> Ends(PrintFrom(v, i) + ([0x5D] + x))
  {
    if i < |v.items| {
      ItemOk(v, i, unicode);
      FirstByte(v.items[i], unicode);
      ItemForm(v, i, [0x5D] + x);
      hide Print, PrintFrom;
      var rest := Print(v.items[i]) + (PrintFrom(v, i + 1) + ([0x5D] + x));
      assert rest[0] == Print(v.items[i])[0];
      assert (Separator(i) + rest)[0] == if i == 0 then rest[0] else COMMA;
    }
  }

  lemma ObjectStops(v: Value, order: seq<Text>, i: nat, x: Bytes)
    requires Ordered(v, order) && i <= |order|
    ensures (PrintMembers(v, order, i) + ([0x7D] + x))[0] == 0x7D <==> i == |order|
    ensures i == |order| ==> PrintMembers(v, order, i) + ([0x7D] + x) == [0x7D] + x
    ensures i > 0 ==> Ends(PrintMembers(v, order, i) + ([0x7D] + x))
  {
    if i < |order| {
      MemberForm(v, order, i, [0x7D] + x);
      hide Print, PrintMembers, Escape;
      var item := v.items[IndexOf(v.keys, order[i])];
      var rest := [COLON] + (Print(item) + (PrintMembers(v, order, i + 1) + ([0x7D] + x)));
      assert (Quoted(order[i]) + rest)[0] == QUOTE;
      assert (Separator(i) + (Quoted(order[i]) + rest))[0] == if i == 0 then QUOTE else COMMA;
    }
  }

  /** Unique readability: a printed value is recognised, with what follows it, from its
      text alone. */
  lemma {:induction false} PrintReadsBack(v: Value, w: Value, x: Bytes, y: Bytes, unicode: Text -> bool)
    requires WellFormed(v) && WellFormed(w) && ItemsOk(v, unicode) && ItemsOk(w, unicode)
    requires Ends(x) && Ends(y) && Print(v) + x == Print(w) + y
    ensures Same(v, w) && x == y
    decreases v, 2
  {
    SameKind(v, w, x, y, unicode);
    hide Decimal, Quoted, PrintFrom, PrintMembers, ItemsOk;
    match v {
      case Null => SplitSame(Print(v), Print(w), x, y);
      case Bool(flag) => SplitSame(Print(v), Print(w), x, y);
      case Integer(i) => DecimalEnds(i, w.i, x, y);
      case String(t) => QuotedReadsBack(t, w.text, x, y);
      case Array(items) => ArrayReadsBack(v, w, x, y, unicode);
      case Object(keys, items) => ObjectReadsBack(v, w, x, y, unicode);
    }
  }

  lemma {:induction false} ArrayReadsBack(v: Value, w: Value, x: Bytes, y: Bytes, unicode: Text -> bool)
    requires WellFormed(v) && WellFormed(w) && ItemsOk(v, unicode) && ItemsOk(w, unicode)
    requires v.Array? && w.Array? && Print(v) + x == Print(w) + y
    ensures Same(v, w) && x == y
    decreases v, 1, |v.items| + 1
  {
    hide Print, PrintFrom, ItemsOk;
    ArrayForm(v, x);
    ArrayForm(w, y);
    SplitSame([0x5B], [0x5B], PrintFrom(v, 0) + ([0x5D] + x), PrintFrom(w, 0) + ([0x5D] + y));
    ItemsReadBack(v, w, 0, x, y, unicode);
  }

  lemma {:induction false} ObjectReadsBack(v: Value, w: Value, x: Bytes, y: Bytes, unicode: Text -> bool)
    requires WellFormed(v) && WellFormed(w) && ItemsOk(v, unicode) && ItemsOk(w, unicode)
    requires v.Object? && w.Object? && Print(v) + x == Print(w) + y
    ensures Same(v, w) && x == y
    decreases v, 1, |SortKeys(v.keys)| + 1
  {
    hide Print, PrintMembers, ItemsOk;
    ObjectForm(v, x);
    ObjectForm(w, y);
    var a, b := SortKeys(v.keys), SortKeys(w.keys);
    SplitSame([0x7B], [0x7B], PrintMembers(v, a, 0) + ([0x7D] + x), PrintMembers(w, b, 0) + ([0x7D] + y));
    MembersReadBack(v, w, a, b, 0, x, y, unicode);
    assert a[0..] == a && b[0..] == b;
  }

  lemma SameKind(v: Value, w: Value, x: Bytes, y: Bytes, unicode: Text -> bool)
    requires WellFormed(v) && WellFormed(w) && ItemsOk(v, unicode) && ItemsOk(w, unicode)
    requires Print(v) + x == Print(w) + y
    ensures KindOf(v) == KindOf(w)
  {
    FirstByte(v, unicode);
    FirstByte(w, unicode);
    hide Print;
    assert (Print(v) + x)[0] == Print(v)[0] && (Print(w) + y)[0] == Print(w)[0];
  }

  lemma {:induction false} ItemsReadBack(v: Value, w: Value, i: nat, x: Bytes, y: Bytes, unicode: Text -> bool)
    requires WellFormed(v) && WellFormed(w) && ItemsOk(v, unicode) && ItemsOk(w, unicode)
    requires v.Array? && w.Array? && i <= |v.items| && i <= |w.items|
    requires PrintFrom(v, i) + ([0x5D] + x) == PrintFrom(w, i) + ([0x5D] + y)
    ensures |v.items| == |w.items| && x == y
    ensures forall j :: i <= j < |v.items| ==> Same(v.items[j], w.items[j])
    decreases v, 1, |v.items| - i
  {
    hide Print, PrintFrom, Separator, Ends, ItemsOk, Same;
    ArrayStops(v, i, x, unicode);
    ArrayStops(w, i, y, unicode);
    if i == |v.items| {
      SplitSame([0x5D], [0x5D], x, y);
    } else {
      ItemOk(v, i, unicode);
      ItemOk(w, i, unicode);
      ItemForm(v, i, [0x5D] + x);
      ItemForm(w, i, [0x5D] + y);
      var after, rest := PrintFrom(v, i + 1) + ([0x5D] + x), PrintFrom(w, i + 1) + ([0x5D] + y);
      SplitSame(Separator(i), Separator(i), Print(v.items[i]) + after, Print(w.items[i]) + rest);
      ArrayStops(v, i + 1, x, unicode);
      ArrayStops(w, i + 1, y, unicode);
      PrintReadsBack(v.items[i], w.items[i], after, rest, unicode);
      ItemsReadBack(v, w, i + 1, x, y, unicode);
    }
  }

  lemma {:induction false} MembersReadBack(v: Value, w: Value, a: seq<Text>, b: seq<Text>, i: nat,
                                           x: Bytes, y: Bytes, unicode: Text -> bool)
    requires WellFormed(v) && WellFormed(w) && ItemsOk(v, unicode) && ItemsOk(w, unicode)
    requires Ordered(v, a) && Ordered(w, b) && i <= |a| && i <= |b|
    requires PrintMembers(v, a, i) + ([0x7D] + x) == PrintMembers(w, b, i) + ([0x7D] + y)
    ensures |a| == |b| && a[i..] == b[i..] && x == y
    ensures forall k <- a[i..] :: Same(v.items[IndexOf(v.keys, k)], w.items[IndexOf(w.keys, k)])
    decreases v, 1, |a| - i
  {
    hide Print, PrintMembers, Separator, Ends, ItemsOk, Same, Quoted;
    ObjectStops(v, a, i, x);
    ObjectStops(w, b, i, y);
    if i == |a| {
      SplitSame([0x7D], [0x7D], x, y);
    } else {
      var m, n := IndexOf(v.keys, a[i]), IndexOf(w.keys, b[i]);
      var p, q := v.items[m], w.items[n];
      ItemOk(v, m, unicode);
      ItemOk(w, n, unicode);
      MemberForm(v, a, i, [0x7D] + x);
      MemberForm(w, b, i, [0x7D] + y);
      var after, rest := PrintMembers(v, a, i + 1) + ([0x7D] + x), PrintMembers(w, b, i + 1) + ([0x7D] + y);
      var l, r := [COLON] + (Print(p) + after), [COLON] + (Print(q) + rest);
      SplitSame(Separator(i), Separator(i), Quoted(a[i]) + l, Quoted(b[i]) + r);
      QuotedReadsBack(a[i], b[i], l, r);
      SplitSame([COLON], [COLON], Print(p) + after, Print(q) + rest);
      ObjectStops(v, a, i + 1, x);
      ObjectStops(w, b, i + 1, y);
      PrintReadsBack(p, q, after, rest, unicode);
      MembersReadBack(v, w, a, b, i + 1, x, y, unicode);
      assert a[i..] == [a[i]] + a[i + 1..] && b[i..] == [b[i]] + b[i + 1..];
    }
  }

  // ----- The same value prints alike ------------------------------------------------

  lemma {:induction false} SamePrints(v: Value, w: Value)
    requires WellFormed(v) && WellFormed(w) && Same(v, w)
    ensures Print(v) == Print(w)
    decreases v, 2
  {
    match v {
      case Array(items) => ItemsPrintAlike(v, w, 0);
      case Object(keys, items) =>
        SortKeysSorts(keys);
        SortKeysSorts(w.keys);
        SortedOrderIsUnique(SortKeys(keys), SortKeys(w.keys));
        MembersPrintAlike(v, w, SortKeys(keys), 0);
      case _ =>
    }
  }

  lemma {:induction false} ItemsPrintAlike(v: Value, w: Value, i: nat)
    requires WellFormed(v) && WellFormed(w) && v.Array? && Same(v, w) && i <= |v.items|
    ensures PrintFrom(v, i) == PrintFrom(w, i)
    decreases v, 1, |v.items| - i
  {
    if i < |v.items| {
      SamePrints(v.items[i], w.items[i]);
      ItemsPrintAlike(v, w, i + 1);
    }
  }

  lemma {:induction false} MembersPrintAlike(v: Value, w: Value, order: seq<Text>, i: nat)
    requires WellFormed(v) && WellFormed(w) && v.Object? && Same(v, w)
    requires Ordered(v, order) && Ordered(w, order) && i <= |order|
    ensures PrintMembers(v, order, i) == PrintMembers(w, order, i)
    decreases v, 1, |order| - i
  {
    if i < |order| {
      SamePrints(v.items[IndexOf(v.keys, order[i])], w.items[IndexOf(w.keys, order[i])]);
      MembersPrintAlike(v, w, order, i + 1);
    }
  }

  /** Canonical text identifies a validated value exactly: equal texts, equal values. */
  lemma CanonicalTextIdentifies(v: Value, w: Value, unicode: Text -> bool)
    requires WellFormed(v) && WellFormed(w) && ItemsOk(v, unicode) && ItemsOk(w, unicode)
    ensures Print(v) == Print(w) <==> Same(v, w)
  {
    if Print(v) == Print(w) {
      assert Print(v) + [] == Print(w) + [];
      PrintReadsBack(v, w, [], [], unicode);
    }
    if Same(v, w) {
      SamePrints(v, w);
    }
  }

  lemma {:induction false} SameAsItself(v: Value)
    requires WellFormed(v)
    ensures Same(v, v)
    decreases v
  {
    if v.Array? {
      forall i | 0 <= i < |v.items|
        ensures Same(v.items[i], v.items[i])
      {
        SameAsItself(v.items[i]);
      }
    } else if v.Object? {
      forall k | k in v.keys
        ensures Same(v.items[IndexOf(v.keys, k)], v.items[IndexOf(v.keys, k)])
      {
        SameAsItself(v.items[IndexOf(v.keys, k)]);
      }
    }
  }

  // The order in which the members of an object were inserted does not show.
  lemma InsertionOrderIsInvisible(v: Value, w: Value)
    requires WellFormed(v) && WellFormed(w) && v.Object? && w.Object?
    requires forall k :: k in v.keys <==> k in w.keys
    requires forall k :: k in v.keys && k in w.keys ==>
               v.items[IndexOf(v.keys, k)] == w.items[IndexOf(w.keys, k)]
    ensures Print(v) == Print(w)
  {
    forall k | k in v.keys && k in w.keys
      ensures Same(v.items[IndexOf(v.keys, k)], w.items[IndexOf(w.keys, k)])
    {
      SameAsItself(v.items[IndexOf(v.keys, k)]);
    }
    SamePrints(v, w);
  }

  // ----- Received metadata ----------------------------------------------------------

  const EMPTY_OBJECT: Bytes := [0x7B, 0x7D]

  /** What metadata bytes are taken to be: themselves when they are the canonical text of
      a valid object, and the empty object for no bytes where those are allowed.
      `parsed` is what the JSON parser makes of the bytes. */
  ghost function CanonicalMetadata(raw: Bytes, allowEmpty: bool, parsed: Option<Value>, unicode: Text -> bool)
    : Option<Bytes>
  {
    if raw == [] && allowEmpty then Some(EMPTY_OBJECT)
    else if
      && 0 < |raw| <= 4_096
      && parsed.Some? && parsed.value.Object? && WellFormed(parsed.value)
      && Fits(parsed.value, 1, -1, unicode)
      && Print(parsed.value) == raw
    then Some(raw)
    else None
  }

  method CheckMetadata(raw: Bytes, allowEmpty: bool, parsed: Option<Value>, unicode: Text -> bool)
    returns (r: Option<Bytes>)
    requires parsed.Some? ==> WellFormed(parsed.value)
    ensures r == CanonicalMetadata(raw, allowEmpty, parsed, unicode)
  {
    if raw == [] && allowEmpty {
      return Some([0x7B, 0x7D]);
    }
    if raw == [] || |raw| > MAX_METADATA {
      return None;
    }
    if parsed.None? || !parsed.value.Object? {
      return None;
    }
    var ok, nodes := Validate(parsed.value, 1, -1, unicode);
    if !ok {
      return None;
    }
    var canonical := AppendValue([], parsed.value);
    assert canonical == Print(parsed.value);
    if |canonical| > MAX_METADATA || canonical != raw {
      return None;
    }
    return Some(canonical);
  }

  lemma EmptyObjectIsCanonical(unicode: Text -> bool)
    ensures CanonicalMetadata(EMPTY_OBJECT, false, Some(Object([], [])), unicode) == Some(EMPTY_OBJECT)
  {
    var empty := Object([], []);
    assert NodesAll([]) == 0 && HeightAll([]) == 0;
    assert Print(empty) == [0x7B] + [] + [0x7D];
  }

  // Accepted metadata stands for one value only, whatever parser read it.
  lemma MetadataNamesOneValue(raw: Bytes, v: Value, w: Value, unicode: Text -> bool)
    requires WellFormed(v) && WellFormed(w) && raw != []
    requires CanonicalMetadata(raw, false, Some(v), unicode).Some?
    requires CanonicalMetadata(raw, false, Some(w), unicode).Some?
    ensures Same(v, w)
  {
    CanonicalTextIdentifies(v, w, unicode);
  }
}
