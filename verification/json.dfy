/** JSON trees, `JSON.stringify` on them, and a reader that inverts it. */
module JsonText {
  import opened Texts

  /**
   * A parsed JSON value. A number is represented by the text `JSON.stringify` gives it. An object lists its
   * properties in the order `Object.keys` enumerates them.
   */
  datatype Json =
    | Null
    | Bool(b: bool)
    | Num(text: Text)
    | Str(s: Text)
    | Arr(items: seq<Json>)
    | Obj(fields: seq<Field>)

  datatype Field = Field(key: Text, value: Json)

  const QUOTE: Unit := 34
  const BACKSLASH: Unit := 92
  const COMMA: Unit := 44
  const COLON: Unit := 58
  const OPEN_BRACKET: Unit := 91
  const CLOSE_BRACKET: Unit := 93
  const OPEN_BRACE: Unit := 123
  const CLOSE_BRACE: Unit := 125
  const NULL_WORD: Text := [110, 117, 108, 108]
  const TRUE_WORD: Text := [116, 114, 117, 101]
  const FALSE_WORD: Text := [102, 97, 108, 115, 101]

  predicate Digit(u: Unit) { 48 <= u <= 57 }

  /** Units a number text is made of: digits, `+`, `-`, `.`, `E`, `e`. */
  predicate NumUnit(u: Unit) { Digit(u) || u == 43 || u == 45 || u == 46 || u == 69 || u == 101 }

  predicate IsNumText(t: Text) {
    && t != []
    && (Digit(t[0]) || t[0] == 45)
    && forall i | 0 <= i < |t| :: NumUnit(t[i])
  }

  predicate DistinctKeys(fs: seq<Field>) {
    forall i, j | 0 <= i < j < |fs| :: fs[i].key != fs[j].key
  }

  predicate WellFormed(v: Json) {
    match v
    case Num(t) => IsNumText(t)
    case Arr(items) => forall i | 0 <= i < |items| :: WellFormed(items[i])
    case Obj(fs) => DistinctKeys(fs) && forall i | 0 <= i < |fs| :: WellFormed(fs[i].value)
    case _ => true
  }

  /* ---------- printing ---------- */

  predicate HighSurrogate(u: Unit) { 0xD800 <= u <= 0xDBFF }

  predicate LowSurrogate(u: Unit) { 0xDC00 <= u <= 0xDFFF }

  function HexDigit(n: int): Unit
    requires 0 <= n < 16
  {
    if n < 10 then 48 + n else 87 + n
  }

  function UnicodeEscape(u: Unit): Text {
    [BACKSLASH, 117, HexDigit(u / 4096), HexDigit(u / 256 % 16), HexDigit(u / 16 % 16), HexDigit(u % 16)]
  }

  function EscapeUnit(u: Unit): Text {
    if u == QUOTE || u == BACKSLASH then [BACKSLASH, u]
    else if u == 8 then [BACKSLASH, 98]
    else if u == 9 then [BACKSLASH, 116]
    else if u == 10 then [BACKSLASH, 110]
    else if u == 12 then [BACKSLASH, 102]
    else if u == 13 then [BACKSLASH, 114]
    else if u < 32 || HighSurrogate(u) || LowSurrogate(u) then UnicodeEscape(u)
    else [u]
  }

  /** A surrogate pair is copied; a lone surrogate is written as an escape. */
  function Escape(s: Text): Text {
    if s == [] then []
    else if |s| >= 2 && HighSurrogate(s[0]) && LowSurrogate(s[1]) then [s[0], s[1]] + Escape(s[2..])
    else EscapeUnit(s[0]) + Escape(s[1..])
  }

  function Quote(s: Text): Text { [QUOTE] + Escape(s) + [QUOTE] }

  /** `JSON.stringify`: properties in enumeration order. */
  function Print(v: Json): Text
    decreases v, 1
  {
    match v
    case Null => NULL_WORD
    case Bool(b) => if b then TRUE_WORD else FALSE_WORD
    case Num(t) => t
    case Str(s) => Quote(s)
    case Arr(items) => [OPEN_BRACKET] + PrintItems(items) + [CLOSE_BRACKET]
    case Obj(fs) => [OPEN_BRACE] + PrintFields(fs) + [CLOSE_BRACE]
  }

  function PrintItems(items: seq<Json>): Text
    decreases items, 0
  {
    if items == [] then []
    else Print(items[0]) + (if |items| == 1 then [] else [COMMA] + PrintItems(items[1..]))
  }

  function PrintFields(fs: seq<Field>): Text
    decreases fs, 0
  {
    if fs == [] then []
    else Quote(fs[0].key) + [COLON] + Print(fs[0].value) + (if |fs| == 1 then [] else [COMMA] + PrintFields(fs[1..]))
  }

  /* ---------- reading ---------- */

  datatype Read<T> = Bad | Got(value: T, rest: Text)

  predicate IsHex(u: Unit) { 48 <= u <= 57 || 97 <= u <= 102 }

  function HexValue(u: Unit): (n: int)
    requires IsHex(u)
    ensures 0 <= n < 16
  {
    if u <= 57 then u - 48 else u - 87
  }

  /** The meaning of the one-letter escapes of section 7 of RFC 8259. */
  function ShortEscape(u: Unit): Read<Unit> {
    if u == QUOTE || u == BACKSLASH || u == 47 then Got(u, [])
    else if u == 98 then Got(8, [])
    else if u == 116 then Got(9, [])
    else if u == 110 then Got(10, [])
    else if u == 102 then Got(12, [])
    else if u == 114 then Got(13, [])
    else Bad
  }

  /** Reads one, possibly escaped, unit of a string. */
  function ReadUnit(t: Text): (r: Read<Unit>)
    ensures r.Got? ==> |r.rest| < |t|
  {
    if t == [] || t[0] == QUOTE || t[0] < 32 then Bad
    else if t[0] != BACKSLASH then Got(t[0], t[1..])
    else if |t| >= 2 && ShortEscape(t[1]).Got? then Got(ShortEscape(t[1]).value, t[2..])
    else if |t| >= 6 && t[1] == 117 && IsHex(t[2]) && IsHex(t[3]) && IsHex(t[4]) && IsHex(t[5]) then
      Got(HexValue(t[2]) * 4096 + HexValue(t[3]) * 256 + HexValue(t[4]) * 16 + HexValue(t[5]), t[6..])
    else Bad
  }

  /** Reads a string body up to and including its closing quote. */
  function ReadBody(t: Text): (r: Read<Text>)
    ensures r.Got? ==> |r.rest| < |t|
    decreases |t|
  {
    if t != [] && t[0] == QUOTE then Got([], t[1..])
    else
      match ReadUnit(t)
      case Bad => Bad
      case Got(u, rest) =>
        match ReadBody(rest)
        case Bad => Bad
        case Got(s, rest') => Got([u] + s, rest')
  }

  /** The longest prefix of number units. */
  function NumLength(t: Text): (n: nat)
    ensures n <= |t|
  {
    if t != [] && NumUnit(t[0]) then 1 + NumLength(t[1..]) else 0
  }

  function ReadValue(t: Text): (r: Read<Json>)
    ensures r.Got? ==> |r.rest| < |t|
    decreases |t|, 1
  {
    if t == [] then Bad
    else if t[0] == QUOTE then
      (match ReadBody(t[1..])
       case Bad => Bad
       case Got(s, rest) => Got(Str(s), rest))
    else if t[0] == OPEN_BRACKET then
      if |t| >= 2 && t[1] == CLOSE_BRACKET then Got(Arr([]), t[2..])
      else
        (match ReadItems(t[1..])
         case Bad => Bad
         case Got(items, rest) => Got(Arr(items), rest))
    else if t[0] == OPEN_BRACE then
      if |t| >= 2 && t[1] == CLOSE_BRACE then Got(Obj([]), t[2..])
      else
        (match ReadFields(t[1..])
         case Bad => Bad
         case Got(fs, rest) => Got(Obj(fs), rest))
    else if Digit(t[0]) || t[0] == 45 then Got(Num(t[..NumLength(t)]), t[NumLength(t)..])
    else if NULL_WORD <= t then Got(Null, t[4..])
    else if TRUE_WORD <= t then Got(Bool(true), t[4..])
    else if FALSE_WORD <= t then Got(Bool(false), t[5..])
    else Bad
  }

  /** One or more comma-separated values and the closing bracket. */
  function ReadItems(t: Text): (r: Read<seq<Json>>)
    ensures r.Got? ==> |r.rest| < |t|
    decreases |t|, 2
  {
    match ReadValue(t)
    case Bad => Bad
    case Got(v, rest) =>
      if rest != [] && rest[0] == CLOSE_BRACKET then Got([v], rest[1..])
      else if rest != [] && rest[0] == COMMA then
        (match ReadItems(rest[1..])
         case Bad => Bad
         case Got(vs, rest') => Got([v] + vs, rest'))
      else Bad
  }

  /** One or more comma-separated members and the closing brace. */
  function ReadFields(t: Text): (r: Read<seq<Field>>)
    ensures r.Got? ==> |r.rest| < |t|
    decreases |t|, 2
  {
    if t == [] || t[0] != QUOTE then Bad
    else
      match ReadBody(t[1..])
      case Bad => Bad
      case Got(k, afterKey) =>
        if afterKey == [] || afterKey[0] != COLON then Bad
        else
          match ReadValue(afterKey[1..])
          case Bad => Bad
          case Got(v, rest) =>
            if rest != [] && rest[0] == CLOSE_BRACE then Got([Field(k, v)], rest[1..])
            else if rest != [] && rest[0] == COMMA then
              (match ReadFields(rest[1..])
               case Bad => Bad
               case Got(fs, rest') => Got([Field(k, v)] + fs, rest'))
            else Bad
  }

  /* ---------- the reader inverts the printer ---------- */

  lemma {:induction false} HexRoundTrip(n: int)
    requires 0 <= n < 16
    ensures IsHex(HexDigit(n)) && HexValue(HexDigit(n)) == n
  {
  }

  lemma {:induction false} FourDigits(u: Unit)
    ensures u / 4096 * 4096 + u / 256 % 16 * 256 + u / 16 % 16 * 16 + u % 16 == u
    ensures u / 4096 < 16
  {
    assert u / 16 / 16 == u / 256 && u / 256 / 16 == u / 4096;
  }

  lemma {:induction false} ReadUnicodeEscape(u: Unit, rest: Text)
    ensures ReadUnit(UnicodeEscape(u) + rest) == Got(u, rest)
  {
    var t := UnicodeEscape(u) + rest;
    FourDigits(u);
    HexRoundTrip(u / 4096);
    HexRoundTrip(u / 256 % 16);
    HexRoundTrip(u / 16 % 16);
    HexRoundTrip(u % 16);
    assert t[6..] == rest;
    assert t[0] == BACKSLASH && t[1] == 117;
    assert t[2] == HexDigit(u / 4096) && t[3] == HexDigit(u / 256 % 16);
    assert t[4] == HexDigit(u / 16 % 16) && t[5] == HexDigit(u % 16);
  }

  lemma {:induction false} ReadEscapedUnit(u: Unit, rest: Text)
    ensures ReadUnit(EscapeUnit(u) + rest) == Got(u, rest)
  {
    var e := EscapeUnit(u);
    var t := e + rest;
    if e == UnicodeEscape(u) {
      ReadUnicodeEscape(u, rest);
    } else if |e| == 2 {
      assert t[0] == BACKSLASH && t[1] == e[1] && t[2..] == rest;
    } else {
      assert t[0] == u && t[1..] == rest;
    }
  }

  /** One step of `ReadBody` over an escaped unit. */
  lemma {:induction false} ReadBodyStep(u: Unit, e: Text, s: Text, tail: Text, rest: Text)
    requires e != [] && e[0] != QUOTE
    requires ReadUnit(e + tail) == Got(u, tail)
    requires ReadBody(tail) == Got(s, rest)
    ensures ReadBody(e + tail) == Got([u] + s, rest)
  {
  }

  lemma {:induction false} ReadBodyPair(hi: Unit, lo: Unit, s: Text, tail: Text, rest: Text)
    requires HighSurrogate(hi) && LowSurrogate(lo)
    requires ReadBody(tail) == Got(s, rest)
    ensures ReadBody([hi, lo] + tail) == Got([hi, lo] + s, rest)
  {
    var t1 := [lo] + tail;
    assert t1[1..] == tail;
    ReadBodyStep(lo, [lo], s, tail, rest);
    var t0 := [hi] + t1;
    assert t0[1..] == t1;
    ReadBodyStep(hi, [hi], [lo] + s, t1, rest);
    assert [hi, lo] + tail == t0;
    assert [hi, lo] + s == [hi] + ([lo] + s);
  }

  lemma {:induction false} ReadEscaped(s: Text, rest: Text)
    ensures ReadBody(Escape(s) + ([QUOTE] + rest)) == Got(s, rest)
    decreases |s|
  {
    hide ReadUnit, EscapeUnit;
    var tail := [QUOTE] + rest;
    if s == [] {
      assert Escape(s) + tail == tail;
      assert tail[1..] == rest;
    } else if |s| >= 2 && HighSurrogate(s[0]) && LowSurrogate(s[1]) {
      ReadEscaped(s[2..], rest);
      ReadBodyPair(s[0], s[1], s[2..], Escape(s[2..]) + tail, rest);
      assert Escape(s) + tail == [s[0], s[1]] + (Escape(s[2..]) + tail);
      assert s == [s[0], s[1]] + s[2..];
    } else {
      ReadEscaped(s[1..], rest);
      var t1 := Escape(s[1..]) + tail;
      ReadEscapedUnit(s[0], t1);
      EscapeUnitHead(s[0]);
      ReadBodyStep(s[0], EscapeUnit(s[0]), s[1..], t1, rest);
      assert Escape(s) + tail == EscapeUnit(s[0]) + t1;
      assert s == [s[0]] + s[1..];
    }
  }

  lemma {:induction false} EscapeUnitHead(u: Unit)
    ensures EscapeUnit(u) != [] && EscapeUnit(u)[0] != QUOTE
  {
  }

  lemma {:induction false} ReadQuoted(s: Text, rest: Text)
    ensures Quote(s) + rest != [] && (Quote(s) + rest)[0] == QUOTE
    ensures ReadBody((Quote(s) + rest)[1..]) == Got(s, rest)
  {
    hide ReadBody, Escape;
    ReadEscaped(s, rest);
    assert (Quote(s) + rest)[1..] == Escape(s) + ([QUOTE] + rest);
  }

  /** `rest` does not continue a number. */
  predicate Ends(rest: Text) { rest == [] || !NumUnit(rest[0]) }

  lemma {:induction false} NumLengthOf(t: Text, rest: Text)
    requires forall i | 0 <= i < |t| :: NumUnit(t[i])
    requires Ends(rest)
    ensures NumLength(t + rest) == |t|
  {
    if t == [] {
      assert t + rest == rest;
    } else {
      NumLengthOf(t[1..], rest);
      assert (t + rest)[1..] == t[1..] + rest;
    }
  }

  /** The first unit of a printed value tells its kind. */
  lemma {:induction false} PrintHead(v: Json)
    requires WellFormed(v)
    ensures Print(v) != []
    ensures var u := Print(v)[0];
            && (v.Null? <==> u == 110)
            && (v.Bool? <==> u == 116 || u == 102)
            && (v.Str? <==> u == QUOTE)
            && (v.Arr? <==> u == OPEN_BRACKET)
            && (v.Obj? <==> u == OPEN_BRACE)
            && (v.Num? <==> Digit(u) || u == 45)
            && u != CLOSE_BRACKET && u != CLOSE_BRACE
  {
  }

  /**
   * Reading back what was printed gives the value and leaves exactly what followed it. Only a number needs
   * `rest` not to continue it.
   */
  lemma {:induction false} ReadPrinted(v: Json, rest: Text)
    requires WellFormed(v)
    requires v.Num? ==> Ends(rest)
    ensures ReadValue(Print(v) + rest) == Got(v, rest)
    decreases v, 1
  {
    match v
    case Num(n) => ReadPrintedNum(n, rest);
    case Str(s) => ReadPrintedStr(s, rest);
    case Arr(items) =>
      if items != [] { ReadPrintedItems(items, rest); }
      ReadPrintedArr(items, rest);
    case Obj(fs) =>
      if fs != [] { ReadPrintedFields(fs, rest); }
      ReadPrintedObj(fs, rest);
    case _ => ReadPrintedWord(v, rest);
  }

  lemma {:induction false} ReadPrintedWord(v: Json, rest: Text)
    requires v.Null? || v.Bool?
    ensures ReadValue(Print(v) + rest) == Got(v, rest)
  {
    var t := Print(v) + rest;
    assert t[|Print(v)|..] == rest;
    assert t[0] == Print(v)[0];
  }

  lemma {:induction false} ReadPrintedNum(n: Text, rest: Text)
    requires IsNumText(n) && Ends(rest)
    ensures ReadValue(n + rest) == Got(Num(n), rest)
  {
    var t := n + rest;
    NumLengthOf(n, rest);
    assert t[0] == n[0] && t[..|n|] == n && t[|n|..] == rest;
  }

  lemma {:induction false} ReadPrintedStr(s: Text, rest: Text)
    ensures ReadValue(Quote(s) + rest) == Got(Str(s), rest)
  {
    ReadQuoted(s, rest);
  }

  /** What `ReadValue` does after an opening bracket. */
  lemma {:induction false} ReadArray(body: Text)
    requires body != []
    ensures body[0] == CLOSE_BRACKET ==> ReadValue([OPEN_BRACKET] + body) == Got(Arr([]), body[1..])
    ensures body[0] != CLOSE_BRACKET && ReadItems(body).Got? ==>
              ReadValue([OPEN_BRACKET] + body) == Got(Arr(ReadItems(body).value), ReadItems(body).rest)
  {
    hide ReadItems, ReadFields, ReadBody;
    var t := [OPEN_BRACKET] + body;
    assert t[1..] == body;
    assert t[2..] == body[1..];
  }

  lemma {:induction false} ReadPrintedArr(items: seq<Json>, rest: Text)
    requires items != [] ==>
               && WellFormed(items[0])
               && ReadItems(PrintItems(items) + [CLOSE_BRACKET] + rest) == Got(items, rest)
    ensures ReadValue(Print(Arr(items)) + rest) == Got(Arr(items), rest)
  {
    hide ReadValue, ReadItems;
    var t := Print(Arr(items)) + rest;
    if items == [] {
      ReadArray([CLOSE_BRACKET] + rest);
      assert t == [OPEN_BRACKET] + ([CLOSE_BRACKET] + rest);
      assert ([CLOSE_BRACKET] + rest)[1..] == rest;
    } else {
      var body := PrintItems(items) + [CLOSE_BRACKET] + rest;
      PrintItemsHead(items);
      ReadArray(body);
      assert t == [OPEN_BRACKET] + body;
    }
  }

  lemma {:induction false} ReadPrintedObj(fs: seq<Field>, rest: Text)
    requires fs != [] ==> ReadFields(PrintFields(fs) + [CLOSE_BRACE] + rest) == Got(fs, rest)
    ensures ReadValue(Print(Obj(fs)) + rest) == Got(Obj(fs), rest)
  {
    hide ReadValue, ReadFields;
    var t := Print(Obj(fs)) + rest;
    if fs == [] {
      assert t == [OPEN_BRACE, CLOSE_BRACE] + rest;
      ReadObject([CLOSE_BRACE] + rest);
      assert t == [OPEN_BRACE] + ([CLOSE_BRACE] + rest);
      assert ([CLOSE_BRACE] + rest)[1..] == rest;
    } else {
      var body := PrintFields(fs) + [CLOSE_BRACE] + rest;
      PrintFieldsHead(fs);
      ReadObject(body);
      assert t == [OPEN_BRACE] + body;
    }
  }

  /** What `ReadValue` does after an opening brace. */
  lemma {:induction false} ReadObject(body: Text)
    requires body != []
    ensures body[0] == CLOSE_BRACE ==> ReadValue([OPEN_BRACE] + body) == Got(Obj([]), body[1..])
    ensures body[0] != CLOSE_BRACE && ReadFields(body).Got? ==>
              ReadValue([OPEN_BRACE] + body) == Got(Obj(ReadFields(body).value), ReadFields(body).rest)
  {
    hide ReadItems, ReadFields, ReadBody;
    var t := [OPEN_BRACE] + body;
    assert t[1..] == body;
    assert t[2..] == body[1..];
  }

  lemma {:induction false} PrintFieldsHead(fs: seq<Field>)
    requires fs != []
    ensures PrintFields(fs) != [] && PrintFields(fs)[0] == QUOTE
  {
  }

  lemma {:induction false} PrintItemsHead(items: seq<Json>)
    requires items != [] && WellFormed(items[0])
    ensures PrintItems(items) != [] && PrintItems(items)[0] != CLOSE_BRACKET
  {
    PrintHead(items[0]);
  }

  lemma {:induction false} ReadPrintedItems(items: seq<Json>, rest: Text)
    requires items != [] && forall i | 0 <= i < |items| :: WellFormed(items[i])
    ensures ReadItems(PrintItems(items) + [CLOSE_BRACKET] + rest) == Got(items, rest)
    decreases items, 0
  {
    hide ReadItems, ReadValue, PrintItems;
    var v := items[0];
    PrintItemsStep(items);
    if |items| == 1 {
      var after := [CLOSE_BRACKET] + rest;
      Associate(Print(v) + [], [CLOSE_BRACKET], rest);
      assert Print(v) + [] == Print(v);
      assert after[1..] == rest;
      ReadPrinted(v, after);
      ReadItem(v, Print(v), after);
      assert items == [v];
    } else {
      var tail := PrintItems(items[1..]);
      var more := tail + [CLOSE_BRACKET] + rest;
      var after := [COMMA] + more;
      Associate(Print(v) + ([COMMA] + tail), [CLOSE_BRACKET], rest);
      Associate(Print(v), [COMMA] + tail, [CLOSE_BRACKET] + rest);
      Associate([COMMA], tail, [CLOSE_BRACKET] + rest);
      Associate(tail, [CLOSE_BRACKET], rest);
      assert after[1..] == more;
      ReadPrintedItems(items[1..], rest);
      ReadPrinted(v, after);
      ReadItem(v, Print(v), after);
      assert items == [v] + items[1..];
    }
  }

  lemma {:induction false} PrintItemsStep(items: seq<Json>)
    requires items != []
    ensures PrintItems(items) == Print(items[0]) + (if |items| == 1 then [] else [COMMA] + PrintItems(items[1..]))
  {
  }

  /** What `ReadItems` does with one value that reads back. */
  lemma {:induction false} ReadItem(v: Json, text: Text, after: Text)
    requires ReadValue(text + after) == Got(v, after) && after != []
    ensures after[0] == CLOSE_BRACKET ==> ReadItems(text + after) == Got([v], after[1..])
    ensures after[0] == COMMA && ReadItems(after[1..]).Got? ==>
              ReadItems(text + after) == Got([v] + ReadItems(after[1..]).value, ReadItems(after[1..]).rest)
  {
    hide ReadValue;
  }

  lemma {:induction false} ReadPrintedFields(fs: seq<Field>, rest: Text)
    requires fs != [] && forall i | 0 <= i < |fs| :: WellFormed(fs[i].value)
    ensures ReadFields(PrintFields(fs) + [CLOSE_BRACE] + rest) == Got(fs, rest)
    decreases fs, 0
  {
    hide ReadFields, ReadValue, Quote, PrintFields;
    var f := fs[0];
    PrintFieldsStep(fs);
    if |fs| == 1 {
      var after := [CLOSE_BRACE] + rest;
      Regroup(Quote(f.key), [COLON], Print(f.value), [], [CLOSE_BRACE], rest);
      assert [] + after == after;
      assert after[1..] == rest;
      ReadPrinted(f.value, after);
      ReadMember(f, Print(f.value), after);
      assert fs == [f];
    } else {
      var tail := PrintFields(fs[1..]);
      var more := tail + [CLOSE_BRACE] + rest;
      var after := [COMMA] + more;
      Regroup(Quote(f.key), [COLON], Print(f.value), [COMMA] + tail, [CLOSE_BRACE], rest);
      Associate([COMMA], tail, [CLOSE_BRACE] + rest);
      Associate(tail, [CLOSE_BRACE], rest);
      assert after[1..] == more;
      ReadPrintedFields(fs[1..], rest);
      ReadPrinted(f.value, after);
      ReadMember(f, Print(f.value), after);
      assert fs == [f] + fs[1..];
    }
  }

  lemma {:induction false} PrintFieldsStep(fs: seq<Field>)
    requires fs != []
    ensures PrintFields(fs) == Quote(fs[0].key) + [COLON] + Print(fs[0].value) +
                               (if |fs| == 1 then [] else [COMMA] + PrintFields(fs[1..]))
  {
  }

  /** Concatenation is associative: brings the parts of one printed element into the order they are read. */
  lemma {:induction false} Regroup(head: Text, sep: Text, value: Text, more: Text, close: Text, rest: Text)
    ensures head + sep + value + more + close + rest == head + (sep + (value + (more + (close + rest))))
  {
    Associate(head + sep + value + more, close, rest);
    Associate(head + sep + value, more, close + rest);
    Associate(head + sep, value, more + (close + rest));
    Associate(head, sep, value + (more + (close + rest)));
  }

  lemma {:induction false} Associate(a: Text, b: Text, c: Text)
    ensures a + b + c == a + (b + c)
  {
  }

  /** What `ReadFields` does with one member whose value reads back. */
  lemma {:induction false} ReadMember(f: Field, value: Text, after: Text)
    requires ReadValue(value + after) == Got(f.value, after) && after != []
    ensures var t := Quote(f.key) + ([COLON] + (value + after));
            && (after[0] == CLOSE_BRACE ==> ReadFields(t) == Got([f], after[1..]))
            && (after[0] == COMMA && ReadFields(after[1..]).Got? ==>
                  ReadFields(t) == Got([f] + ReadFields(after[1..]).value, ReadFields(after[1..]).rest))
  {
    hide ReadValue, ReadBody, Quote;
    var afterKey := [COLON] + (value + after);
    ReadQuoted(f.key, afterKey);
    assert afterKey[1..] == value + after;
    assert f == Field(f.key, f.value);
  }

  /** `JSON.stringify` is injective: equal texts come from equal values, property order included. */
  lemma {:induction false} PrintInjective(v: Json, w: Json)
    requires WellFormed(v) && WellFormed(w)
    ensures Print(v) == Print(w) <==> v == w
  {
    ReadPrinted(v, []);
    ReadPrinted(w, []);
    assert Print(v) + [] == Print(v) && Print(w) + [] == Print(w);
  }
}
