/**
 * server/api/idempotency.js: the canonical text of a request body, and when a stored key replays.
 * Strings are sequences of UTF-16 code units, as in the program; a number is the text it prints as.
 */
module Idempotency {
  import opened Basics

  type Unit = u: int | 0 <= u < 0x10000
  type Text = seq<Unit>

  datatype Json =
    | JsonNull
    | JsonBool(b: bool)
    | JsonNumber(digits: Text)
    | JsonString(text: Text)
    | JsonArray(items: seq<Json>)
    | JsonObject(fields: seq<Field>)
  datatype Field = Field(name: Text, value: Json)

  const QUOTE: Unit := 34
  const COMMA: Unit := 44
  const COLON: Unit := 58
  const OPEN_BRACKET: Unit := 91
  const BACKSLASH: Unit := 92
  const CLOSE_BRACKET: Unit := 93
  const OPEN_BRACE: Unit := 123
  const CLOSE_BRACE: Unit := 125
  const NULL_TEXT: Text := [110, 117, 108, 108]
  const TRUE_TEXT: Text := [116, 114, 117, 101]
  const FALSE_TEXT: Text := [102, 97, 108, 115, 101]

  /** A digit, a sign, a point or an exponent mark. */
  predicate IsNumeric(u: Unit) { 48 <= u <= 57 || u == 43 || u == 45 || u == 46 || u == 101 }

  /** What JSON.parse gives: printed numbers are numeric text, and an object has each name once. */
  ghost predicate Parsed(v: Json)
    decreases v
  {
    match v
    case JsonNumber(d) => d != [] && (d[0] == 45 || 48 <= d[0] <= 57) && forall i :: 0 <= i < |d| ==> IsNumeric(d[i])
    case JsonArray(xs) => forall i :: 0 <= i < |xs| ==> Parsed(xs[i])
    case JsonObject(fs) =>
      && (forall i :: 0 <= i < |fs| ==> Parsed(fs[i].value))
      && (forall i, k :: 0 <= i < k < |fs| ==> fs[i].name != fs[k].name)
    case _ => true
  }

  // ------------------------------------------------------------------ JSON.stringify of a string

  predicate IsHigh(u: Unit) { 0xD800 <= u < 0xDC00 }

  predicate IsLow(u: Unit) { 0xDC00 <= u < 0xE000 }

  function HexDigit(n: int): Unit
    requires 0 <= n < 16
  {
    if n < 10 then 48 + n else 87 + n
  }

  function HexValue(u: Unit): int { if 48 <= u <= 57 then u - 48 else u - 87 }

  function Hex4(u: Unit): Text { [HexDigit(u / 4096), HexDigit(u / 256 % 16), HexDigit(u / 16 % 16), HexDigit(u % 16)] }

  /** One code unit: escaped when it is a quote, a backslash, a control or a lone surrogate. */
  function Escaped(u: Unit): Text
  {
    if u == QUOTE || u == BACKSLASH then [BACKSLASH, u]
    else if u == 8 then [BACKSLASH, 98]
    else if u == 9 then [BACKSLASH, 116]
    else if u == 10 then [BACKSLASH, 110]
    else if u == 12 then [BACKSLASH, 102]
    else if u == 13 then [BACKSLASH, 114]
    else if u < 32 || IsHigh(u) || IsLow(u) then [BACKSLASH, 117] + Hex4(u)
    else [u]
  }

  function Escape(s: Text): Text
  {
    if s == [] then []
    else if IsHigh(s[0]) && |s| > 1 && IsLow(s[1]) then [s[0], s[1]] + Escape(s[2..])
    else Escaped(s[0]) + Escape(s[1..])
  }

  function Quoted(s: Text): Text { [QUOTE] + Escape(s) + [QUOTE] }

  datatype Scan = Scan(units: Text, rest: Text) | Broken

  /** Reads a quoted string after its opening quote; what follows the closing one is left. */
  function Unquote(t: Text): Scan
  {
    if t == [] then Broken
    else if t[0] == QUOTE then Scan([], t[1..])
    else if t[0] != BACKSLASH then Prepend(t[0], Unquote(t[1..]))
    else if |t| < 2 then Broken
    else if t[1] == 117 then
      if |t| < 6 || !ValidUnit(t[2..6]) then Broken else Prepend(UnitOf(t[2..6]), Unquote(t[6..]))
    else Prepend(Plain(t[1]), Unquote(t[2..]))
  }

  function Prepend(u: Unit, s: Scan): Scan { if s.Scan? then Scan([u] + s.units, s.rest) else s }

  function Plain(u: Unit): Unit
  {
    if u == 98 then 8 else if u == 116 then 9 else if u == 110 then 10 else if u == 102 then 12 else if u == 114 then 13 else u
  }

  function HexSum(t: Text): int
    requires |t| == 4
  {
    4096 * HexValue(t[0]) + 256 * HexValue(t[1]) + 16 * HexValue(t[2]) + HexValue(t[3])
  }

  predicate ValidUnit(t: Text)
    requires |t| == 4
  {
    0 <= HexSum(t) < 0x10000
  }

  function UnitOf(t: Text): Unit
    requires |t| == 4 && ValidUnit(t)
  {
    HexSum(t)
  }

  lemma Hex4Reads(u: Unit)
    ensures HexSum(Hex4(u)) == u
  {
    forall n | 0 <= n < 16 ensures HexValue(HexDigit(n)) == n {
    }
    assert u == 16 * (u / 16) + u % 16 && u / 16 == 16 * (u / 256) + u / 16 % 16 && u / 256 == 16 * (u / 4096) + u / 256 % 16;
  }

  lemma EscapedReads(u: Unit, tail: Text)
    ensures Unquote(Escaped(u) + tail) == Prepend(u, Unquote(tail))
  {
    var t := Escaped(u) + tail;
    if u == QUOTE || u == BACKSLASH || u == 8 || u == 9 || u == 10 || u == 12 || u == 13 {
      assert t[2..] == tail;
    } else if u < 32 || IsHigh(u) || IsLow(u) {
      Hex4Reads(u);
      assert t[2..6] == Hex4(u);
      assert t[6..] == tail;
    } else {
      assert t[1..] == tail;
    }
  }

  lemma PairReads(u: Unit, v: Unit, tail: Text)
    requires IsHigh(u) && IsLow(v)
    ensures Unquote([u, v] + tail) == Prepend(u, Prepend(v, Unquote(tail)))
  {
    var t := [u, v] + tail;
    assert t[1..] == [v] + tail;
    assert t[1..][1..] == tail;
  }

  lemma EscapeUnfold(s: Text)
    requires s != []
    ensures if IsHigh(s[0]) && |s| > 1 && IsLow(s[1]) then Escape(s) == [s[0], s[1]] + Escape(s[2..])
            else Escape(s) == Escaped(s[0]) + Escape(s[1..])
  {
  }

  lemma Closes(tail: Text)
    ensures Unquote([QUOTE] + tail) == Scan([], tail)
  {
    assert ([QUOTE] + tail)[1..] == tail;
  }

  /** A quoted string reads back, whatever follows it. */
  lemma {:induction false} QuotedReads(s: Text, tail: Text)
    ensures Unquote(Escape(s) + ([QUOTE] + tail)) == Scan(s, tail)
    decreases |s|
  {
    hide Unquote, Escape, Escaped;
    if s == [] {
      EscapeNothing();
      Closes(tail);
      assert [] + ([QUOTE] + tail) == [QUOTE] + tail;
    } else {
      EscapeUnfold(s);
      if IsHigh(s[0]) && |s| > 1 && IsLow(s[1]) {
        var after := Escape(s[2..]) + ([QUOTE] + tail);
        QuotedReads(s[2..], tail);
        PairReads(s[0], s[1], after);
        assert Escape(s) + ([QUOTE] + tail) == [s[0], s[1]] + after;
        assert s == [s[0]] + ([s[1]] + s[2..]);
      } else {
        var after := Escape(s[1..]) + ([QUOTE] + tail);
        QuotedReads(s[1..], tail);
        EscapedReads(s[0], after);
        assert Escape(s) + ([QUOTE] + tail) == Escaped(s[0]) + after;
        assert s == [s[0]] + s[1..];
      }
    }
  }

  lemma EscapeNothing()
    ensures Escape([]) == []
  {
  }

  lemma QuotedUnique(s: Text, t: Text, x: Text, y: Text)
    requires Quoted(s) + x == Quoted(t) + y
    ensures s == t && x == y
  {
    hide Unquote, Escape;
    QuotedReads(s, x);
    QuotedReads(t, y);
    assert (Quoted(s) + x)[1..] == Escape(s) + ([QUOTE] + x);
    assert (Quoted(t) + y)[1..] == Escape(t) + ([QUOTE] + y);
  }

  // ------------------------------------------------------------------ sorting the names

  /** The order Array.prototype.sort gives strings: by code unit, a prefix first. */
  predicate Less(s: Text, t: Text)
  {
    if t == [] then false
    else if s == [] then true
    else if s[0] != t[0] then s[0] < t[0]
    else Less(s[1..], t[1..])
  }

  lemma {:induction false} LessTotal(s: Text, t: Text)
    ensures s == t || Less(s, t) || Less(t, s)
    ensures !(Less(s, t) && Less(t, s)) && !Less(s, s)
  {
    if s != [] {
      if t != [] && s[0] == t[0] {
        assert s == [s[0]] + s[1..] && t == [t[0]] + t[1..];
        LessTotal(s[1..], t[1..]);
      } else {
        LessTotal(s[1..], s[1..]);
      }
    }
  }

  lemma {:induction false} LessTransitive(s: Text, t: Text, u: Text)
    requires Less(s, t) && Less(t, u)
    ensures Less(s, u)
  {
    if s != [] && s[0] == t[0] && t[0] == u[0] { LessTransitive(s[1..], t[1..], u[1..]); }
  }

  function Insert(f: Field, fs: seq<Field>): (r: seq<Field>)
    ensures |r| == |fs| + 1
    ensures forall g :: g in r <==> g == f || g in fs
  {
    if fs == [] || Less(f.name, fs[0].name) then [f] + fs
    else
      assert fs == [fs[0]] + fs[1..];
      [fs[0]] + Insert(f, fs[1..])
  }

  /** The value with the names of each object in order. */
  function Sorted(v: Json): Json
    decreases v
  {
    match v
    case JsonArray(xs) => JsonArray(SortedItems(xs))
    case JsonObject(fs) => JsonObject(SortedFields(fs))
    case _ => v
  }

  function SortedItems(xs: seq<Json>): (r: seq<Json>)
    ensures |r| == |xs|
    decreases xs
  {
    if xs == [] then [] else [Sorted(xs[0])] + SortedItems(xs[1..])
  }

  function SortedFields(fs: seq<Field>): (r: seq<Field>)
    ensures |r| == |fs|
    decreases fs
  {
    if fs == [] then [] else Insert(Field(fs[0].name, Sorted(fs[0].value)), SortedFields(fs[1..]))
  }

  // ------------------------------------------------------------------ writing

  function Write(v: Json): Text
    decreases v
  {
    match v
    case JsonNull => NULL_TEXT
    case JsonBool(b) => if b then TRUE_TEXT else FALSE_TEXT
    case JsonNumber(d) => d
    case JsonString(s) => Quoted(s)
    case JsonArray(xs) => [OPEN_BRACKET] + WriteItems(xs) + [CLOSE_BRACKET]
    case JsonObject(fs) => [OPEN_BRACE] + WriteFields(fs) + [CLOSE_BRACE]
  }

  function WriteItems(xs: seq<Json>): Text
    decreases xs
  {
    if xs == [] then []
    else if |xs| == 1 then Write(xs[0])
    else Write(xs[0]) + [COMMA] + WriteItems(xs[1..])
  }

  function WriteField(f: Field): Text
    decreases f
  {
    Quoted(f.name) + [COLON] + Write(f.value)
  }

  function WriteFields(fs: seq<Field>): Text
    decreases fs
  {
    if fs == [] then []
    else if |fs| == 1 then WriteField(fs[0])
    else WriteField(fs[0]) + [COMMA] + WriteFields(fs[1..])
  }

  /** stable: the text of the value with sorted names. */
  function Stable(v: Json): Text { Write(Sorted(v)) }

  // ------------------------------------------------------------------ unique decoding

  /** What may follow a value: nothing, or a unit no number contains. */
  predicate Ends(x: Text) { x == [] || !IsNumeric(x[0]) }

  lemma Front(d: Text, x: Text)
    ensures d == [] ==> d + x == x
    ensures d != [] ==> (d + x)[0] == d[0] && (d + x)[1..] == d[1..] + x && d == [d[0]] + d[1..]
  {
  }

  lemma {:induction false} NumbersUnique(d: Text, e: Text, x: Text, y: Text)
    requires forall i :: 0 <= i < |d| ==> IsNumeric(d[i])
    requires forall i :: 0 <= i < |e| ==> IsNumeric(e[i])
    requires Ends(x) && Ends(y) && d + x == e + y
    ensures d == e && x == y
  {
    Front(d, x);
    Front(e, y);
    if d != [] && e != [] { NumbersUnique(d[1..], e[1..], x, y); }
  }

  /** What a value's text begins with tells its kind. */
  function Kind(u: Unit): int
  {
    if u == 110 then 1 else if u == 116 then 2 else if u == 102 then 3 else if u == QUOTE then 4
    else if u == OPEN_BRACKET then 5 else if u == OPEN_BRACE then 6 else if IsNumeric(u) then 7 else 0
  }

  function KindOf(v: Json): int
  {
    match v
    case JsonNull => 1
    case JsonBool(b) => if b then 2 else 3
    case JsonString(_) => 4
    case JsonArray(_) => 5
    case JsonObject(_) => 6
    case JsonNumber(_) => 7
  }

  lemma Begins(v: Json, x: Text)
    requires Parsed(v)
    ensures Write(v) != [] && (Write(v) + x)[0] == Write(v)[0] && Kind(Write(v)[0]) == KindOf(v) != 0
  {
  }

  lemma WordEnds(v: Json, x: Text)
    ensures (Write(v) + x)[|Write(v)|..] == x
  {
  }

  lemma ArrayOpens(xs: seq<Json>, x: Text)
    ensures (Write(JsonArray(xs)) + x)[1..] == WriteItems(xs) + ([CLOSE_BRACKET] + x)
  {
  }

  lemma ObjectOpens(fs: seq<Field>, x: Text)
    ensures (Write(JsonObject(fs)) + x)[1..] == WriteFields(fs) + ([CLOSE_BRACE] + x)
  {
  }

  lemma PlainText(v: Json)
    ensures v.JsonNumber? ==> Write(v) == v.digits
    ensures v.JsonString? ==> Write(v) == Quoted(v.text)
    ensures v.JsonNull? ==> Write(v) == NULL_TEXT
    ensures v.JsonBool? ==> Write(v) == if v.b then TRUE_TEXT else FALSE_TEXT
  {
  }

  /** Two texts that agree, each followed by something that ends a value, are of the same value. */
  lemma {:induction false} WriteUnique(a: Json, b: Json, x: Text, y: Text)
    requires Parsed(a) && Parsed(b) && Ends(x) && Ends(y) && Write(a) + x == Write(b) + y
    ensures a == b && x == y
    decreases a
  {
    hide Write, WriteItems, WriteFields, Quoted;
    Begins(a, x);
    Begins(b, y);
    hide Kind;
    PlainText(a);
    PlainText(b);
    match a {
      case JsonNumber(d) => NumbersUnique(d, b.digits, x, y);
      case JsonString(s) => QuotedUnique(s, b.text, x, y);
      case JsonArray(xs) =>
        ArrayOpens(xs, x);
        ArrayOpens(b.items, y);
        ItemsUnique(xs, b.items, x, y);
      case JsonObject(fs) =>
        ObjectOpens(fs, x);
        ObjectOpens(b.fields, y);
        FieldsUnique(fs, b.fields, x, y);
      case _ =>
        WordEnds(a, x);
        WordEnds(b, y);
    }
  }

  /** What follows the first of the items. */
  function AfterItem(xs: seq<Json>, x: Text): Text
    requires xs != []
  {
    if |xs| == 1 then [CLOSE_BRACKET] + x else [COMMA] + (WriteItems(xs[1..]) + ([CLOSE_BRACKET] + x))
  }

  lemma ItemsSplit(xs: seq<Json>, x: Text)
    requires xs != []
    ensures WriteItems(xs) + ([CLOSE_BRACKET] + x) == Write(xs[0]) + AfterItem(xs, x) && Ends(AfterItem(xs, x))
  {
  }

  lemma {:induction false} ItemsUnique(xs: seq<Json>, ys: seq<Json>, x: Text, y: Text)
    requires forall i :: 0 <= i < |xs| ==> Parsed(xs[i])
    requires forall i :: 0 <= i < |ys| ==> Parsed(ys[i])
    requires WriteItems(xs) + ([CLOSE_BRACKET] + x) == WriteItems(ys) + ([CLOSE_BRACKET] + y)
    ensures xs == ys && x == y
    decreases xs
  {
    if xs == [] || ys == [] {
      NoItems(xs, x);
      NoItems(ys, y);
      assert ([CLOSE_BRACKET] + x)[1..] == x && ([CLOSE_BRACKET] + y)[1..] == y;
    } else {
      ItemsSplit(xs, x);
      ItemsSplit(ys, y);
      WriteUnique(xs[0], ys[0], AfterItem(xs, x), AfterItem(ys, y));
      assert AfterItem(xs, x)[0] == AfterItem(ys, y)[0];
      assert xs == [xs[0]] + xs[1..] && ys == [ys[0]] + ys[1..];
      if |xs| == 1 {
        assert ([CLOSE_BRACKET] + x)[1..] == x && ([CLOSE_BRACKET] + y)[1..] == y;
      } else {
        assert AfterItem(xs, x)[1..] == WriteItems(xs[1..]) + ([CLOSE_BRACKET] + x);
        assert AfterItem(ys, y)[1..] == WriteItems(ys[1..]) + ([CLOSE_BRACKET] + y);
        ItemsUnique(xs[1..], ys[1..], x, y);
      }
    }
  }

  lemma NoItems(xs: seq<Json>, x: Text)
    requires forall i :: 0 <= i < |xs| ==> Parsed(xs[i])
    ensures var t := WriteItems(xs) + ([CLOSE_BRACKET] + x); t != [] && (t[0] == CLOSE_BRACKET <==> xs == [])
    ensures xs == [] ==> WriteItems(xs) + ([CLOSE_BRACKET] + x) == [CLOSE_BRACKET] + x
  {
    if xs != [] {
      ItemsSplit(xs, x);
      Begins(xs[0], AfterItem(xs, x));
    }
  }

  function AfterField(fs: seq<Field>, x: Text): Text
    requires fs != []
  {
    if |fs| == 1 then [CLOSE_BRACE] + x else [COMMA] + (WriteFields(fs[1..]) + ([CLOSE_BRACE] + x))
  }

  lemma FieldsSplit(fs: seq<Field>, x: Text)
    requires fs != []
    ensures WriteFields(fs) + ([CLOSE_BRACE] + x) == Quoted(fs[0].name) + ([COLON] + (Write(fs[0].value) + AfterField(fs, x)))
    ensures Ends(AfterField(fs, x))
  {
    hide Write, WriteFields, Quoted, WriteField;
    var name, value, after := Quoted(fs[0].name), Write(fs[0].value), AfterField(fs, x);
    FieldsUnfold(fs);
    if |fs| > 1 { Regroup(WriteField(fs[0]), [COMMA], WriteFields(fs[1..]), [CLOSE_BRACE] + x); }
    Regroup(name, [COLON], value, after);
  }

  lemma FieldsUnfold(fs: seq<Field>)
    requires fs != []
    ensures WriteFields(fs) == if |fs| == 1 then WriteField(fs[0]) else WriteField(fs[0]) + [COMMA] + WriteFields(fs[1..])
    ensures WriteField(fs[0]) == Quoted(fs[0].name) + [COLON] + Write(fs[0].value)
  {
    hide Write, Quoted;
  }

  lemma Regroup(a: Text, b: Text, c: Text, d: Text)
    ensures (a + b + c) + d == a + (b + (c + d))
    ensures (a + (b + c)) + d == a + (b + (c + d))
  {
  }

  lemma {:induction false} FieldsUnique(fs: seq<Field>, gs: seq<Field>, x: Text, y: Text)
    requires forall i :: 0 <= i < |fs| ==> Parsed(fs[i].value)
    requires forall i :: 0 <= i < |gs| ==> Parsed(gs[i].value)
    requires WriteFields(fs) + ([CLOSE_BRACE] + x) == WriteFields(gs) + ([CLOSE_BRACE] + y)
    ensures fs == gs && x == y
    decreases fs
  {
    if fs == [] || gs == [] {
      NoFields(fs, x);
      NoFields(gs, y);
      assert ([CLOSE_BRACE] + x)[1..] == x && ([CLOSE_BRACE] + y)[1..] == y;
    } else {
      FieldsSplit(fs, x);
      FieldsSplit(gs, y);
      var a, b := Write(fs[0].value) + AfterField(fs, x), Write(gs[0].value) + AfterField(gs, y);
      QuotedUnique(fs[0].name, gs[0].name, [COLON] + a, [COLON] + b);
      assert ([COLON] + a)[1..] == a && ([COLON] + b)[1..] == b;
      WriteUnique(fs[0].value, gs[0].value, AfterField(fs, x), AfterField(gs, y));
      assert AfterField(fs, x)[0] == AfterField(gs, y)[0];
      assert fs == [fs[0]] + fs[1..] && gs == [gs[0]] + gs[1..];
      if |fs| == 1 {
        assert ([CLOSE_BRACE] + x)[1..] == x && ([CLOSE_BRACE] + y)[1..] == y;
      } else {
        assert AfterField(fs, x)[1..] == WriteFields(fs[1..]) + ([CLOSE_BRACE] + x);
        assert AfterField(gs, y)[1..] == WriteFields(gs[1..]) + ([CLOSE_BRACE] + y);
        FieldsUnique(fs[1..], gs[1..], x, y);
      }
    }
  }

  lemma NoFields(fs: seq<Field>, x: Text)
    ensures var t := WriteFields(fs) + ([CLOSE_BRACE] + x); t != [] && (t[0] == CLOSE_BRACE <==> fs == [])
    ensures fs == [] ==> WriteFields(fs) + ([CLOSE_BRACE] + x) == [CLOSE_BRACE] + x
  {
    if fs != [] { FieldsSplit(fs, x); }
  }

  // ------------------------------------------------------------------ equal up to the order of names

  /** The same value, objects compared name by name in whatever order they were written. */
  ghost predicate Same(a: Json, b: Json)
    decreases a
  {
    match a
    case JsonArray(xs) => b.JsonArray? && |xs| == |b.items| && forall i :: 0 <= i < |xs| ==> Same(xs[i], b.items[i])
    case JsonObject(fs) =>
      && b.JsonObject? && |fs| == |b.fields|
      && forall i :: 0 <= i < |fs| ==> exists k :: 0 <= k < |b.fields| && b.fields[k].name == fs[i].name && Same(fs[i].value, b.fields[k].value)
    case _ => a == b
  }

  ghost predicate Ordered(fs: seq<Field>)
  {
    forall i, k :: 0 <= i < k < |fs| ==> Less(fs[i].name, fs[k].name)
  }

  lemma {:induction false} InsertOrders(f: Field, fs: seq<Field>)
    requires Ordered(fs) && forall g :: g in fs ==> g.name != f.name
    ensures Ordered(Insert(f, fs))
  {
    if fs != [] && !Less(f.name, fs[0].name) {
      assert fs == [fs[0]] + fs[1..];
      LessTotal(f.name, fs[0].name);
      InsertOrders(f, fs[1..]);
      var r := Insert(f, fs[1..]);
      forall k | 0 <= k < |r| ensures Less(fs[0].name, r[k].name) {
        assert r[k] in r;
        if r[k] != f {
          var m :| 0 <= m < |fs[1..]| && fs[1..][m] == r[k];
          assert fs[m + 1] == r[k];
        }
      }
    } else if fs != [] {
      forall k | 0 < k < |fs| ensures Less(f.name, fs[k].name) { LessTransitive(f.name, fs[0].name, fs[k].name); }
    }
  }

  /** The fields as they stand, each with its value sorted. */
  ghost function SortedInside(fs: seq<Field>): (r: seq<Field>)
    ensures |r| == |fs| && forall i :: 0 <= i < |fs| ==> r[i] == Field(fs[i].name, Sorted(fs[i].value))
  {
    seq(|fs|, i requires 0 <= i < |fs| => Field(fs[i].name, Sorted(fs[i].value)))
  }

  /** The sorted fields are the fields, each with its value sorted, in order of name. */
  lemma {:induction false} SortedFieldsAre(fs: seq<Field>)
    requires forall i, k :: 0 <= i < k < |fs| ==> fs[i].name != fs[k].name
    ensures Ordered(SortedFields(fs))
    ensures forall g :: g in SortedFields(fs) <==> g in SortedInside(fs)
  {
    if fs != [] {
      SortedFieldsAre(fs[1..]);
      var f := Field(fs[0].name, Sorted(fs[0].value));
      var r := SortedFields(fs[1..]);
      assert SortedInside(fs) == [f] + SortedInside(fs[1..]);
      forall g | g in r ensures g.name != f.name {
        var i :| 0 <= i < |fs[1..]| && SortedInside(fs[1..])[i] == g;
        assert fs[i + 1] == fs[1..][i];
      }
      InsertOrders(f, r);
    }
  }

  /** Ordered lists with the same fields are the same list. */
  lemma {:induction false} OrderedUnique(fs: seq<Field>, gs: seq<Field>)
    requires Ordered(fs) && Ordered(gs) && |fs| == |gs|
    requires forall f :: f in fs ==> f in gs
    ensures fs == gs
  {
    if fs != [] {
      assert fs[0] in fs && fs[0] in gs;
      var i :| 0 <= i < |gs| && gs[i] == fs[0];
      if i > 0 { MissingField(fs, gs, i); }
      assert fs == [fs[0]] + fs[1..] && gs == [gs[0]] + gs[1..];
      forall f | f in fs[1..] ensures f in gs[1..] {
        var k :| 0 <= k < |fs[1..]| && fs[1..][k] == f;
        assert f == fs[k + 1] && f in fs && f in gs;
        LessTotal(f.name, f.name);
      }
      OrderedUnique(fs[1..], gs[1..]);
    }
  }

  /** A longer list of later fields cannot fit behind place i. */
  lemma MissingField(fs: seq<Field>, gs: seq<Field>, i: nat)
    requires Ordered(fs) && Ordered(gs) && |fs| == |gs| && fs != []
    requires forall f :: f in fs ==> f in gs
    requires i < |gs| && gs[i] == fs[0]
    ensures i == 0
  {
    PlacesFit(fs, gs, |fs| - 1, i);
  }

  /** Place k of the one is at least place i + k of the other. */
  lemma {:induction false} PlacesFit(fs: seq<Field>, gs: seq<Field>, k: nat, i: nat)
    requires Ordered(fs) && Ordered(gs) && k < |fs|
    requires forall f :: f in fs ==> f in gs
    requires i < |gs| && gs[i] == fs[0]
    ensures i + k < |gs| && exists m :: i + k <= m < |gs| && gs[m] == fs[k]
  {
    if k > 0 {
      PlacesFit(fs, gs, k - 1, i);
      var m :| i + (k - 1) <= m < |gs| && gs[m] == fs[k - 1];
      assert fs[k] in fs;
      var n :| 0 <= n < |gs| && gs[n] == fs[k];
      LessTotal(fs[k - 1].name, fs[k].name);
      LessTotal(fs[k].name, fs[k].name);
      assert n > m;
    }
  }

  lemma {:induction false} SortedItemsAt(xs: seq<Json>, i: nat)
    requires i < |xs|
    ensures SortedItems(xs)[i] == Sorted(xs[i])
  {
    if i > 0 { SortedItemsAt(xs[1..], i - 1); }
  }

  /** Sorting names forgets exactly their order. */
  lemma {:induction false} SortedSame(a: Json, b: Json)
    requires Parsed(a) && Parsed(b)
    ensures Sorted(a) == Sorted(b) <==> Same(a, b)
    decreases a
  {
    match a {
      case JsonArray(xs) =>
        if b.JsonArray? && |xs| == |b.items| {
          forall i | 0 <= i < |xs|
            ensures SortedItems(xs)[i] == SortedItems(b.items)[i] <==> Same(xs[i], b.items[i])
          {
            SortedItemsAt(xs, i);
            SortedItemsAt(b.items, i);
            SortedSame(xs[i], b.items[i]);
          }
        }
      case JsonObject(fs) =>
        if b.JsonObject? && |fs| == |b.fields| {
          var gs := b.fields;
          SortedFieldsAre(fs);
          SortedFieldsAre(gs);
          forall i, k | 0 <= i < |fs| && 0 <= k < |gs| ensures Sorted(fs[i].value) == Sorted(gs[k].value) <==> Same(fs[i].value, gs[k].value) {
            SortedSame(fs[i].value, gs[k].value);
          }
          if Sorted(a) == Sorted(b) { FieldsMatch(fs, gs); }
          if Same(a, b) { FieldsFound(fs, gs); }
        }
      case _ =>
    }
  }

  ghost predicate HasMatch(f: Field, gs: seq<Field>)
  {
    exists k :: 0 <= k < |gs| && gs[k].name == f.name && Sorted(f.value) == Sorted(gs[k].value)
  }

  lemma FieldsMatch(fs: seq<Field>, gs: seq<Field>)
    requires forall g :: g in SortedInside(fs) ==> g in SortedInside(gs)
    ensures forall i :: 0 <= i < |fs| ==> HasMatch(fs[i], gs)
  {
    hide Sorted;
    forall i | 0 <= i < |fs| ensures HasMatch(fs[i], gs) {
      assert SortedInside(fs)[i] in SortedInside(fs);
      var k :| 0 <= k < |gs| && SortedInside(gs)[k] == SortedInside(fs)[i];
      assert gs[k].name == fs[i].name;
    }
  }

  lemma FieldsFound(fs: seq<Field>, gs: seq<Field>)
    requires |fs| == |gs| && Ordered(SortedFields(fs)) && Ordered(SortedFields(gs))
    requires forall g :: g in SortedFields(fs) <==> g in SortedInside(fs)
    requires forall g :: g in SortedFields(gs) <==> g in SortedInside(gs)
    requires forall i :: 0 <= i < |fs| ==> HasMatch(fs[i], gs)
    ensures SortedFields(fs) == SortedFields(gs)
  {
    SameLength(fs, gs);
    hide Sorted, SortedFields, Ordered;
    forall f | f in SortedInside(fs) ensures f in SortedInside(gs) {
      var i :| 0 <= i < |fs| && SortedInside(fs)[i] == f;
      assert HasMatch(fs[i], gs);
      var k :| 0 <= k < |gs| && gs[k].name == fs[i].name && Sorted(fs[i].value) == Sorted(gs[k].value);
      assert f == SortedInside(gs)[k];
    }
    OrderedUnique(SortedFields(fs), SortedFields(gs));
  }

  lemma SameLength(fs: seq<Field>, gs: seq<Field>)
    requires |fs| == |gs|
    ensures |SortedFields(fs)| == |SortedFields(gs)|
  {
  }

  lemma {:induction false} SortedParsed(v: Json)
    requires Parsed(v)
    ensures Parsed(Sorted(v))
    decreases v
  {
    match v {
      case JsonArray(xs) =>
        forall i | 0 <= i < |xs| ensures Parsed(SortedItems(xs)[i]) {
          SortedItemsAt(xs, i);
          SortedParsed(xs[i]);
        }
      case JsonObject(fs) =>
        SortedFieldsAre(fs);
        var r := SortedFields(fs);
        forall k | 0 <= k < |r| ensures Parsed(r[k].value) {
          assert r[k] in r;
          var i :| 0 <= i < |fs| && SortedInside(fs)[i] == r[k];
          SortedParsed(fs[i].value);
        }
        forall i, k | 0 <= i < k < |r| ensures r[i].name != r[k].name {
          LessTotal(r[i].name, r[k].name);
        }
      case _ =>
    }
  }

  /** stable(a) = stable(b) exactly when the values are equal up to the order of object names. */
  lemma StableIsCanonical(a: Json, b: Json)
    requires Parsed(a) && Parsed(b)
    ensures Stable(a) == Stable(b) <==> Same(a, b)
  {
    SortedSame(a, b);
    SortedParsed(a);
    SortedParsed(b);
    if Stable(a) == Stable(b) {
      assert Write(Sorted(a)) + [] == Write(Sorted(b)) + [];
      WriteUnique(Sorted(a), Sorted(b), [], []);
    }
  }

  // ------------------------------------------------------------------ the request and the replay rule

  const SPACE: Unit := 32
  const NEWLINE: Unit := 10

  datatype Request = Request(verb: Text, path: Text, body: Json)

  /** An HTTP method holds no space and a path no newline. */
  ghost predicate Sound(r: Request) { SPACE !in r.verb && NEWLINE !in r.path && Parsed(r.body) }

  function RequestText(r: Request): Text { r.verb + [SPACE] + r.path + [NEWLINE] + Stable(r.body) }

  lemma MarkFront(s: Text, mark: Unit, x: Text)
    ensures var a := s + [mark] + x;
      if s == [] then a[0] == mark && a[1..] == x
      else a[0] == s[0] && a[1..] == s[1..] + [mark] + x && s[0] in s && s == [s[0]] + s[1..]
  {
  }

  lemma {:induction false} SplitUnique(s: Text, t: Text, mark: Unit, x: Text, y: Text)
    requires mark !in s && mark !in t && s + [mark] + x == t + [mark] + y
    ensures s == t && x == y
  {
    MarkFront(s, mark, x);
    MarkFront(t, mark, y);
    if s != [] && t != [] { SplitUnique(s[1..], t[1..], mark, x, y); }
  }

  /** What is hashed names the request: same method, same path, and the same body up to the order of names. */
  lemma RequestTextIsUnique(a: Request, b: Request)
    requires Sound(a) && Sound(b)
    ensures RequestText(a) == RequestText(b) <==> a.verb == b.verb && a.path == b.path && Same(a.body, b.body)
  {
    StableIsCanonical(a.body, b.body);
    if RequestText(a) == RequestText(b) {
      var x, y := a.path + [NEWLINE] + Stable(a.body), b.path + [NEWLINE] + Stable(b.body);
      assert RequestText(a) == a.verb + [SPACE] + x && RequestText(b) == b.verb + [SPACE] + y;
      SplitUnique(a.verb, b.verb, SPACE, x, y);
      SplitUnique(a.path, b.path, NEWLINE, Stable(a.body), Stable(b.body));
    }
  }

  // ------------------------------------------------------------------ a principal's key

  /** A letter, a digit, or one of . _ : - */
  predicate KeyUnit(u: Unit)
  {
    65 <= u <= 90 || 97 <= u <= 122 || 48 <= u <= 57 || u == 46 || u == 95 || u == COLON || u == 45
  }

  /** KEY_RE. */
  predicate GoodKey(key: Text) { 8 <= |key| <= 200 && AllKeyUnits(key) }

  predicate AllKeyUnits(t: Text) { forall i :: 0 <= i < |t| ==> KeyUnit(t[i]) }

  /** What a key is stored under. */
  function Scoped(principal: Text, key: Text): Text { principal + [COLON] + key }

  /** The longer principal is the shorter one, a colon, and rest. */
  predicate Continues(longer: Text, shorter: Text, rest: Text) { longer == shorter + [COLON] + rest }

  /**
   * Two pairs are stored under one text exactly when they are the same pair, or one principal goes on
   * after the other's colon and the other's key starts with what it goes on with.
   */
  lemma ScopedTextUnique(p: Text, k: Text, q: Text, m: Text)
    ensures Scoped(p, k) == Scoped(q, m) <==>
      (|| (p == q && k == m)
       || (|p| < |q| && exists rest :: Continues(q, p, rest) && k == rest + [COLON] + m)
       || (|q| < |p| && exists rest :: Continues(p, q, rest) && m == rest + [COLON] + k))
  {
    if |p| < |q| {
      LongerScope(p, k, q, m);
    } else if |q| < |p| {
      LongerScope(q, m, p, k);
    } else if Scoped(p, k) == Scoped(q, m) {
      assert Scoped(p, k)[..|p|] == p && Scoped(q, m)[..|q|] == q;
      assert Scoped(p, k)[|p| + 1..] == k && Scoped(q, m)[|q| + 1..] == m;
    }
  }

  lemma LongerScope(p: Text, k: Text, q: Text, m: Text)
    requires |p| < |q|
    ensures Scoped(p, k) == Scoped(q, m) <==> exists rest :: Continues(q, p, rest) && k == rest + [COLON] + m
  {
    if Scoped(p, k) == Scoped(q, m) {
      var t, rest := Scoped(p, k), q[|p| + 1..];
      assert t[..|q|] == q && t[|q|..] == [COLON] + m;
      assert q == t[..|p|] + [t[|p|]] + rest && t[..|p|] == p;
      assert k == t[|p| + 1..] && t[|p| + 1..] == rest + t[|q|..];
      assert k == rest + [COLON] + m;
    }
    if rest :| Continues(q, p, rest) && k == rest + [COLON] + m {
      assert p + [COLON] + (rest + [COLON] + m) == (p + [COLON] + rest) + [COLON] + m;
    }
  }

  /** Another principal's stored key can be reached with a key of the right form. */
  ghost predicate Overlap(p: Text, q: Text)
  {
    exists k, m :: GoodKey(k) && GoodKey(m) && Scoped(p, k) == Scoped(q, m)
  }

  ghost predicate Shadows(longer: Text, shorter: Text)
  {
    exists rest :: Continues(longer, shorter, rest) && |rest| <= 191 && AllKeyUnits(rest)
  }

  /** Two principals share a text exactly when one goes on after the other with a colon and up to 191 units of a key. */
  lemma ScopesOverlap(p: Text, q: Text)
    requires p != q
    ensures Overlap(p, q) <==> Shadows(q, p) || Shadows(p, q)
  {
    if Overlap(p, q) {
      var k, m :| GoodKey(k) && GoodKey(m) && Scoped(p, k) == Scoped(q, m);
      ScopedTextUnique(p, k, q, m);
      if |p| < |q| { KeyGoesOn(p, k, q, m); } else { KeyGoesOn(q, m, p, k); }
    }
    if Shadows(q, p) {
      var m := ShadowKeys(p, q);
      assert GoodKey(m.0) && GoodKey(m.1) && Scoped(p, m.0) == Scoped(q, m.1);
    }
    if Shadows(p, q) {
      var m := ShadowKeys(q, p);
      assert GoodKey(m.1) && GoodKey(m.0) && Scoped(p, m.1) == Scoped(q, m.0);
    }
  }

  lemma KeyGoesOn(p: Text, k: Text, q: Text, m: Text)
    requires GoodKey(k) && GoodKey(m) && exists rest :: Continues(q, p, rest) && k == rest + [COLON] + m
    ensures Shadows(q, p)
  {
    var rest :| Continues(q, p, rest) && k == rest + [COLON] + m;
    assert forall i :: 0 <= i < |rest| ==> rest[i] == k[i];
  }

  lemma ShadowKeys(p: Text, q: Text) returns (keys: (Text, Text))
    requires Shadows(q, p)
    ensures GoodKey(keys.0) && GoodKey(keys.1) && Scoped(p, keys.0) == Scoped(q, keys.1)
  {
    var rest :| Continues(q, p, rest) && |rest| <= 191 && AllKeyUnits(rest);
    var m: Text := seq(8, _ => 97);
    keys := (rest + [COLON] + m, m);
    assert p + [COLON] + (rest + [COLON] + m) == (p + [COLON] + rest) + [COLON] + m;
  }

  // ------------------------------------------------------------------ stored responses

  datatype Response = Response(status: int, body: nat)
  datatype Kept = Kept(request: Text, response: Response)
  datatype Decision = KeyRequired | Replay(response: Response) | Reused | Run

  predicate Succeeded(r: Response) { 200 <= r.status < 300 }

  function Decide(keys: map<Text, Kept>, principal: Text, key: Text, request: Request): Decision
  {
    if !GoodKey(key) then KeyRequired
    else if Scoped(principal, key) !in keys then Run
    else if keys[Scoped(principal, key)].request != RequestText(request) then Reused
    else Replay(keys[Scoped(principal, key)].response)
  }

  function Keep(keys: map<Text, Kept>, principal: Text, key: Text, request: Request, response: Response): map<Text, Kept>
  {
    var scoped := Scoped(principal, key);
    if Succeeded(response) && scoped !in keys then keys[scoped := Kept(RequestText(request), response)] else keys
  }

  /** The stored keys; the text stands for its hash. */
  class KeyStore {
    var keys: map<Text, Kept>

    constructor ()
      ensures keys == map[]
    {
      keys := map[];
    }

    /** Before the handler: refuse a missing or malformed key, replay, refuse a reused key, or run. */
    method Begin(principal: Text, key: Text, request: Request) returns (d: Decision)
      ensures d == Decide(keys, principal, key, request)
    {
      if !GoodKey(key) { return KeyRequired; }
      var scoped := Scoped(principal, key);
      if scoped in keys {
        if keys[scoped].request != RequestText(request) { return Reused; }
        return Replay(keys[scoped].response);
      }
      d := Run;
    }

    /** res.json: a success is stored under its key, the first one for good. */
    method Finish(principal: Text, key: Text, request: Request, response: Response)
      modifies this
      ensures keys == Keep(old(keys), principal, key, request, response)
    {
      if Succeeded(response) {
        var scoped := Scoped(principal, key);
        if scoped !in keys { keys := keys[scoped := Kept(RequestText(request), response)]; }
      }
    }
  }

  datatype Answered = Answered(principal: Text, key: Text, request: Request, response: Response)

  function KeepAll(keys: map<Text, Kept>, later: seq<Answered>): map<Text, Kept>
    decreases |later|
  {
    if later == [] then keys else KeepAll(Keep(keys, later[0].principal, later[0].key, later[0].request, later[0].response), later[1..])
  }

  lemma {:induction false} KeptForGood(keys: map<Text, Kept>, later: seq<Answered>, scoped: Text)
    requires scoped in keys
    ensures scoped in KeepAll(keys, later) && KeepAll(keys, later)[scoped] == keys[scoped]
    decreases |later|
  {
    if later != [] {
      KeptForGood(Keep(keys, later[0].principal, later[0].key, later[0].request, later[0].response), later[1..], scoped);
    }
  }

  /**
   * The replay rule: after the first success under a key, and whatever else is answered since, the
   * same request gets that response again and any other request is refused. A refusal stores nothing.
   */
  lemma ReplayRule(
      keys: map<Text, Kept>, principal: Text, key: Text, first: Request, response: Response, later: seq<Answered>, next: Request)
    requires Sound(first) && Sound(next) && GoodKey(key) && Scoped(principal, key) !in keys
    ensures var after := KeepAll(Keep(keys, principal, key, first, response), later);
      200 <= response.status < 300 ==>
        Decide(after, principal, key, next)
          == if first.verb == next.verb && first.path == next.path && Same(first.body, next.body) then Replay(response) else Reused
    ensures !(200 <= response.status < 300) ==> Keep(keys, principal, key, first, response) == keys
    ensures Decide(keys, principal, key, first) == Run
    ensures forall k: Text :: Decide(keys, principal, k, first) == KeyRequired <==> !(8 <= |k| <= 200 && AllKeyUnits(k))
  {
    RequestTextIsUnique(first, next);
    if Succeeded(response) { KeptForGood(Keep(keys, principal, key, first, response), later, Scoped(principal, key)); }
  }

  /** What others store never meets a principal's keys, when neither name goes on after the other with a colon. */
  lemma {:induction false} OthersStayApart(keys: map<Text, Kept>, later: seq<Answered>, principal: Text, key: Text)
    requires GoodKey(key) && Scoped(principal, key) !in keys
    requires forall n :: 0 <= n < |later| ==>
      GoodKey(later[n].key) && later[n].principal != principal
      && !Shadows(later[n].principal, principal) && !Shadows(principal, later[n].principal)
    ensures Scoped(principal, key) !in KeepAll(keys, later)
    decreases |later|
  {
    hide GoodKey, Shadows, Scoped;
    if later != [] {
      var a := later[0];
      ScopesOverlap(principal, a.principal);
      assert forall n :: 0 <= n < |later| - 1 ==> later[1..][n] == later[n + 1];
      OthersStayApart(Keep(keys, a.principal, a.key, a.request, a.response), later[1..], principal, key);
    }
  }
}
