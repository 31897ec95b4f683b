/** JSON values, their text as `JSON.stringify` prints it, and a parser that takes that text back. */
module JsonText {
  import opened Texts
  import opened Wrappers

  /** A JavaScript value. A number is its printed token. `fields` is in the object's own order. */
  datatype Json =
    | Undefined
    | Null
    | Bool(b: bool)
    | Num(token: Text)
    | Str(s: Text)
    | Arr(items: seq<Json>)
    | Obj(fields: seq<Field>)

  datatype Field = Field(key: Text, value: Json)

  const QUOTE: CodeUnit := 0x22
  const BACKSLASH: CodeUnit := 0x5C
  const COMMA: CodeUnit := 0x2C
  const COLON: CodeUnit := 0x3A
  const LBRACKET: CodeUnit := 0x5B
  const RBRACKET: CodeUnit := 0x5D
  const LBRACE: CodeUnit := 0x7B
  const RBRACE: CodeUnit := 0x7D
  const LETTER_U: CodeUnit := 0x75

  const NULL: Text := [0x6E, 0x75, 0x6C, 0x6C]
  const TRUE: Text := [0x74, 0x72, 0x75, 0x65]
  const FALSE: Text := [0x66, 0x61, 0x6C, 0x73, 0x65]

  // ----- strings -----

  predicate IsHigh(c: CodeUnit) { 0xD800 <= c < 0xDC00 }
  predicate IsLow(c: CodeUnit) { 0xDC00 <= c < 0xE000 }

  function HexDigit(n: int): CodeUnit
    requires 0 <= n < 16
  {
    if n < 10 then 0x30 + n else 0x61 + n - 10
  }

  function HexValue(c: CodeUnit): (r: Option<int>)
    ensures r.Some? ==> 0 <= r.value < 16
  {
    if 0x30 <= c <= 0x39 then Some(c - 0x30)
    else if 0x61 <= c <= 0x66 then Some(c - 0x61 + 10)
    else if 0x41 <= c <= 0x46 then Some(c - 0x41 + 10)
    else None
  }

  function UnicodeEscape(c: CodeUnit): Text {
    [BACKSLASH, LETTER_U, HexDigit(c / 4096), HexDigit(c / 256 % 16), HexDigit(c / 16 % 16), HexDigit(c % 16)]
  }

  /** The letter of a two-character escape, if the unit has one. */
  function ShortEscape(c: CodeUnit): Option<CodeUnit> {
    if c == QUOTE || c == BACKSLASH then Some(c)
    else if c == 8 then Some(0x62)
    else if c == 9 then Some(0x74)
    else if c == 10 then Some(0x6E)
    else if c == 12 then Some(0x66)
    else if c == 13 then Some(0x72)
    else None
  }

  /** A unit that is not part of a surrogate pair. */
  function EscapeUnit(c: CodeUnit): Text {
    if ShortEscape(c).Some? then [BACKSLASH, ShortEscape(c).value]
    else if c < 0x20 || IsHigh(c) || IsLow(c) then UnicodeEscape(c)
    else [c]
  }

  /** The inside of a string literal; a lone surrogate is escaped, a pair is not. */
  function QuoteBody(s: Text): Text {
    if s == [] then []
    else if |s| >= 2 && IsHigh(s[0]) && IsLow(s[1]) then [s[0], s[1]] + QuoteBody(s[2..])
    else EscapeUnit(s[0]) + QuoteBody(s[1..])
  }

  function Quote(s: Text): Text {
    [QUOTE] + QuoteBody(s) + [QUOTE]
  }

  function LongEscape(c: CodeUnit): Option<CodeUnit> {
    if c == QUOTE || c == BACKSLASH || c == 0x2F then Some(c)
    else if c == 0x62 then Some(8)
    else if c == 0x74 then Some(9)
    else if c == 0x6E then Some(10)
    else if c == 0x66 then Some(12)
    else if c == 0x72 then Some(13)
    else None
  }

  function Hex4(t: Text): Option<CodeUnit>
    requires |t| >= 4
  {
    var (a, b, c, d) := (HexValue(t[0]), HexValue(t[1]), HexValue(t[2]), HexValue(t[3]));
    if a.Some? && b.Some? && c.Some? && d.Some?
    then Some(a.value * 4096 + b.value * 256 + c.value * 16 + d.value) else None
  }

  /** The unit that stands first in the inside of a string literal, and how many units it takes. */
  function NextUnit(t: Text): Option<(CodeUnit, nat)>
    requires t != []
  {
    if t[0] != BACKSLASH then if t[0] < 0x20 then None else Some((t[0], 1))
    else if |t| < 2 then None
    else if t[1] == LETTER_U then
      if |t| >= 6 && Hex4(t[2..6]).Some? then Some((Hex4(t[2..6]).value, 6)) else None
    else if LongEscape(t[1]).Some? then Some((LongEscape(t[1]).value, 2))
    else None
  }

  /** A string literal after its opening quote: its value and what follows its closing quote. */
  function ParseBody(t: Text): (r: Option<(Text, Text)>)
    ensures r.Some? ==> |r.value.1| < |t|
    decreases |t|
  {
    if t == [] then None
    else if t[0] == QUOTE then Some(([], t[1..]))
    else
      var next := NextUnit(t);
      if next.None? || next.value.1 > |t| then None else
      var tail := ParseBody(t[next.value.1..]);
      if tail.None? then None else Some(([next.value.0] + tail.value.0, tail.value.1))
  }

  /** Text that any encoding can carry: surrogates in pairs only, and no control character. */
  predicate Encodable(t: Text) {
    t == [] ||
    if IsHigh(t[0]) then |t| >= 2 && IsLow(t[1]) && Encodable(t[2..])
    else !IsLow(t[0]) && t[0] >= 0x20 && Encodable(t[1..])
  }

  lemma {:induction false} EncodableParts(a: Text, b: Text)
    requires Encodable(a) && Encodable(b)
    ensures Encodable(a + b)
  {
    if a == [] {
      assert a + b == b;
    } else if IsHigh(a[0]) {
      assert (a + b)[2..] == a[2..] + b;
      EncodableParts(a[2..], b);
    } else {
      assert (a + b)[1..] == a[1..] + b;
      EncodableParts(a[1..], b);
    }
  }

  lemma EncodableEscape(c: CodeUnit)
    requires !(IsHigh(c) || IsLow(c)) || ShortEscape(c).None?
    ensures Encodable(EscapeUnit(c))
  {
    var e := EscapeUnit(c);
    forall i | 0 <= i < |e| ensures !IsHigh(e[i]) && !IsLow(e[i]) && e[i] >= 0x20 {}
    PlainEncodable(e);
  }

  lemma {:induction false} PlainEncodable(t: Text)
    requires forall i :: 0 <= i < |t| ==> !IsHigh(t[i]) && !IsLow(t[i]) && t[i] >= 0x20
    ensures Encodable(t)
  {
    if t != [] {
      PlainEncodable(t[1..]);
    }
  }

  /** Whatever the string, with lone surrogates and control characters, its literal has none. */
  lemma {:induction false} LiteralEncodable(s: Text)
    ensures Encodable(QuoteBody(s))
  {
    if s != [] {
      if |s| >= 2 && IsHigh(s[0]) && IsLow(s[1]) {
        LiteralEncodable(s[2..]);
        assert Encodable([s[0], s[1]]) by {
          assert [s[0], s[1]][2..] == [];
        }
        EncodableParts([s[0], s[1]], QuoteBody(s[2..]));
      } else {
        LiteralEncodable(s[1..]);
        EncodableEscape(s[0]);
        EncodableParts(EscapeUnit(s[0]), QuoteBody(s[1..]));
      }
    }
  }

  lemma HexDigitValue(n: int)
    requires 0 <= n < 16
    ensures HexValue(HexDigit(n)) == Some(n)
  {}

  lemma HexDigits(c: CodeUnit)
    ensures c == c / 4096 * 4096 + c / 256 % 16 * 256 + c / 16 % 16 * 16 + c % 16
  {
    assert c / 16 / 16 == c / 256 && c / 256 / 16 == c / 4096;
  }

  lemma Hex4Parses(c: CodeUnit)
    ensures Hex4([HexDigit(c / 4096), HexDigit(c / 256 % 16), HexDigit(c / 16 % 16), HexDigit(c % 16)]) == Some(c)
  {
    hide HexDigit, HexValue;
    HexDigitValue(c / 4096);
    HexDigitValue(c / 256 % 16);
    HexDigitValue(c / 16 % 16);
    HexDigitValue(c % 16);
    HexDigits(c);
  }

  lemma UnicodeEscapeParses(c: CodeUnit, rest: Text)
    ensures NextUnit(UnicodeEscape(c) + rest) == Some((c, 6))
  {
    hide Hex4, HexDigit;
    Hex4Parses(c);
    var t := UnicodeEscape(c) + rest;
    assert t[2..6] == [HexDigit(c / 4096), HexDigit(c / 256 % 16), HexDigit(c / 16 % 16), HexDigit(c % 16)];
  }

  lemma EscapeStart(c: CodeUnit)
    ensures |UnicodeEscape(c)| == 6 && UnicodeEscape(c)[0] == BACKSLASH
  {}

  lemma EscapeUnitParses(c: CodeUnit, rest: Text)
    ensures NextUnit(EscapeUnit(c) + rest) == Some((c, |EscapeUnit(c)|))
    ensures EscapeUnit(c) != [] && EscapeUnit(c)[0] != QUOTE
  {
    hide UnicodeEscape, Hex4;
    EscapeStart(c);
    if ShortEscape(c).None? && (c < 0x20 || IsHigh(c) || IsLow(c)) {
      UnicodeEscapeParses(c, rest);
    }
  }

  lemma PlainUnit(c: CodeUnit, rest: Text)
    requires IsHigh(c) || IsLow(c)
    ensures NextUnit([c] + rest) == Some((c, 1))
  {}

  /** The parser takes one unit at a time. */
  lemma UnitParses(c: CodeUnit, n: nat, t: Text, rest: Text)
    requires 0 < n <= |t| && t[0] != QUOTE && NextUnit(t) == Some((c, n)) && t[n..] == rest
    ensures ParseBody(t) == (var tail := ParseBody(rest);
                             if tail.None? then None else Some(([c] + tail.value.0, tail.value.1)))
  {
    hide NextUnit;
  }

  lemma HeadOff(head: Text, body: Text, rest: Text)
    ensures head + body + [QUOTE] + rest == head + (body + [QUOTE] + rest)
    ensures (head + (body + [QUOTE] + rest))[|head|..] == body + [QUOTE] + rest
  {}

  lemma {:induction false} BodyParses(s: Text, rest: Text)
    ensures ParseBody(QuoteBody(s) + [QUOTE] + rest) == Some((s, rest))
    decreases |s|
  {
    hide EscapeUnit, NextUnit;
    var t := QuoteBody(s) + [QUOTE] + rest;
    if s == [] {
      assert t[1..] == rest;
    } else if |s| >= 2 && IsHigh(s[0]) && IsLow(s[1]) {
      var tail := QuoteBody(s[2..]) + [QUOTE] + rest;
      BodyParses(s[2..], rest);
      assert t == [s[0]] + ([s[1]] + tail);
      PlainUnit(s[0], [s[1]] + tail);
      PlainUnit(s[1], tail);
      UnitParses(s[0], 1, t, [s[1]] + tail);
      UnitParses(s[1], 1, [s[1]] + tail, tail);
      assert s == [s[0]] + ([s[1]] + s[2..]);
    } else {
      var tail := QuoteBody(s[1..]) + [QUOTE] + rest;
      BodyParses(s[1..], rest);
      EscapeUnitParses(s[0], tail);
      HeadOff(EscapeUnit(s[0]), QuoteBody(s[1..]), rest);
      UnitParses(s[0], |EscapeUnit(s[0])|, t, tail);
      assert s == [s[0]] + s[1..];
    }
  }

  // ----- values -----

  function PrintItems(items: seq<Json>): Text {
    if items == [] then []
    else if |items| == 1 then Print(items[0])
    else Print(items[0]) + [COMMA] + PrintItems(items[1..])
  }

  function PrintField(f: Field): Text {
    Quote(f.key) + [COLON] + Print(f.value)
  }

  function PrintFields(fields: seq<Field>): Text {
    if fields == [] then []
    else if |fields| == 1 then PrintField(fields[0])
    else PrintField(fields[0]) + [COMMA] + PrintFields(fields[1..])
  }

  function Print(v: Json): Text {
    match v
    case Undefined => []
    case Null => NULL
    case Bool(b) => if b then TRUE else FALSE
    case Num(token) => token
    case Str(s) => Quote(s)
    case Arr(items) => [LBRACKET] + PrintItems(items) + [RBRACKET]
    case Obj(fields) => [LBRACE] + PrintFields(fields) + [RBRACE]
  }

  predicate IsNumberUnit(c: CodeUnit) {
    0x30 <= c <= 0x39 || c == 0x2D || c == 0x2B || c == 0x2E || c == 0x65 || c == 0x45
  }

  /** Whether a text may be a printed number: units of a number, the first a digit or a minus sign. A
      number stands for the token that `JSON.stringify` prints for it; other texts of this form, as 1.0,
      are tokens of no number. */
  predicate IsNumber(token: Text) {
    && token != []
    && (0x30 <= token[0] <= 0x39 || token[0] == 0x2D)
    && forall i :: 0 <= i < |token| ==> IsNumberUnit(token[i])
  }

  /** No undefined part, and every number a number token. */
  predicate Printable(v: Json) {
    match v
    case Undefined => false
    case Num(token) => IsNumber(token)
    case Arr(items) => forall i :: 0 <= i < |items| ==> Printable(items[i])
    case Obj(fields) => forall i :: 0 <= i < |fields| ==> Printable(fields[i].value)
    case _ => true
  }

  // ----- the parser -----

  function NumberLength(t: Text): (n: nat)
    ensures n <= |t|
  {
    if t == [] || !IsNumberUnit(t[0]) then 0 else 1 + NumberLength(t[1..])
  }

  function StartsWith(t: Text, p: Text): bool {
    |t| >= |p| && t[..|p|] == p
  }

  /** One JSON value without white space around its parts, and the text after it. */
  function ParseValue(t: Text): (r: Option<(Json, Text)>)
    ensures r.Some? ==> |r.value.1| < |t|
    decreases |t|, 0
  {
    if t == [] then None
    else if StartsWith(t, NULL) then Some((Null, t[4..]))
    else if StartsWith(t, TRUE) then Some((Bool(true), t[4..]))
    else if StartsWith(t, FALSE) then Some((Bool(false), t[5..]))
    else if t[0] == QUOTE then
      var s := ParseBody(t[1..]);
      if s.None? then None else Some((Str(s.value.0), s.value.1))
    else if t[0] == LBRACKET then
      if |t| >= 2 && t[1] == RBRACKET then Some((Arr([]), t[2..])) else
      var items := ParseItems(t[1..]);
      if items.None? then None else Some((Arr(items.value.0), items.value.1))
    else if t[0] == LBRACE then
      if |t| >= 2 && t[1] == RBRACE then Some((Obj([]), t[2..])) else
      var fields := ParseFields(t[1..]);
      if fields.None? then None else Some((Obj(fields.value.0), fields.value.1))
    else if 0x30 <= t[0] <= 0x39 || t[0] == 0x2D then
      var n := NumberLength(t);
      if n == 0 then None else Some((Num(t[..n]), t[n..]))
    else None
  }

  /** The items of an array up to and with its closing bracket. */
  function ParseItems(t: Text): (r: Option<(seq<Json>, Text)>)
    ensures r.Some? ==> |r.value.1| < |t|
    decreases |t|, 1
  {
    var v := ParseValue(t);
    if v.None? || v.value.1 == [] then None
    else if v.value.1[0] == RBRACKET then Some(([v.value.0], v.value.1[1..]))
    else if v.value.1[0] == COMMA then
      var rest := ParseItems(v.value.1[1..]);
      if rest.None? then None else Some(([v.value.0] + rest.value.0, rest.value.1))
    else None
  }

  function ParseField(t: Text): (r: Option<(Field, Text)>)
    ensures r.Some? ==> |r.value.1| < |t|
    decreases |t|, 1
  {
    if t == [] || t[0] != QUOTE then None else
    var key := ParseBody(t[1..]);
    if key.None? || key.value.1 == [] || key.value.1[0] != COLON then None else
    var v := ParseValue(key.value.1[1..]);
    if v.None? then None else Some((Field(key.value.0, v.value.0), v.value.1))
  }

  function ParseFields(t: Text): (r: Option<(seq<Field>, Text)>)
    ensures r.Some? ==> |r.value.1| < |t|
    decreases |t|, 2
  {
    var f := ParseField(t);
    if f.None? || f.value.1 == [] then None
    else if f.value.1[0] == RBRACE then Some(([f.value.0], f.value.1[1..]))
    else if f.value.1[0] == COMMA then
      var rest := ParseFields(f.value.1[1..]);
      if rest.None? then None else Some(([f.value.0] + rest.value.0, rest.value.1))
    else None
  }

  /** What may follow a value: nothing that a number could go on with. */
  predicate Delimited(rest: Text) {
    rest == [] || !IsNumberUnit(rest[0])
  }

  lemma {:induction false} NumberEnds(token: Text, rest: Text)
    requires forall i :: 0 <= i < |token| ==> IsNumberUnit(token[i])
    requires Delimited(rest)
    ensures NumberLength(token + rest) == |token|
  {
    if token == [] {
      assert token + rest == rest;
    } else {
      assert (token + rest)[1..] == token[1..] + rest;
      NumberEnds(token[1..], rest);
    }
  }

  /** The first unit of a printed value says what it is. */
  lemma PrintStart(v: Json)
    requires Printable(v)
    ensures Print(v) != [] && Print(v)[0] != RBRACKET && Print(v)[0] != RBRACE
  {}

  lemma {:induction false} ValueParses(v: Json, rest: Text)
    requires Printable(v) && Delimited(rest)
    ensures ParseValue(Print(v) + rest) == Some((v, rest))
    decreases v, 1
  {
    hide Quote, QuoteBody, ParseBody, PrintItems, PrintFields, ParseItems, ParseFields, NumberLength;
    var t := Print(v) + rest;
    PrintStart(v);
    NoWord(t);
    NothingPrinted();
    match v
    case Null => assert t[..4] == NULL && t[4..] == rest;
    case Bool(b) =>
      if b {
        assert t[..4] == TRUE && t[4..] == rest;
      } else {
        assert t[..5] == FALSE && t[5..] == rest;
      }
    case Num(token) =>
      NumberEnds(token, rest);
      assert t[..|token|] == token && t[|token|..] == rest;
    case Str(s) =>
      BodyParses(s, rest);
      QuoteParts(s, rest);
    case Arr(items) =>
      if items == [] {
        assert t == [LBRACKET, RBRACKET] + rest && t[2..] == rest;
      } else {
        ItemsParse(items, rest);
        ItemsStart(items);
        assert t[1..] == PrintItems(items) + [RBRACKET] + rest;
      }
    case Obj(fields) =>
      if fields == [] {
        assert t == [LBRACE, RBRACE] + rest && t[2..] == rest;
      } else {
        FieldsParse(fields, rest);
        FieldsStart(fields);
        assert t[1..] == PrintFields(fields) + [RBRACE] + rest;
      }
  }

  lemma NoWord(t: Text)
    requires t != []
    ensures t[0] != NULL[0] ==> !StartsWith(t, NULL)
    ensures t[0] != TRUE[0] ==> !StartsWith(t, TRUE)
    ensures t[0] != FALSE[0] ==> !StartsWith(t, FALSE)
  {
    if StartsWith(t, NULL) { assert t[..4][0] == t[0]; }
    if StartsWith(t, TRUE) { assert t[..4][0] == t[0]; }
    if StartsWith(t, FALSE) { assert t[..5][0] == t[0]; }
  }

  lemma NothingPrinted()
    ensures PrintItems([]) == [] && PrintFields([]) == []
  {}

  lemma QuoteParts(s: Text, rest: Text)
    ensures Quote(s)[0] == QUOTE && (Quote(s) + rest)[1..] == QuoteBody(s) + [QUOTE] + rest
  {
    hide QuoteBody;
  }

  lemma FieldsStart(fields: seq<Field>)
    requires fields != []
    ensures PrintFields(fields) != [] && PrintFields(fields)[0] == QUOTE
  {
    hide QuoteBody, Print;
  }

  lemma ItemsStart(items: seq<Json>)
    requires items != [] && forall i :: 0 <= i < |items| ==> Printable(items[i])
    ensures PrintItems(items) != [] && PrintItems(items)[0] != RBRACKET
  {
    hide Print, Printable;
    PrintStart(items[0]);
  }

  lemma Regroup(head: Text, tail: Text, closing: Text, rest: Text)
    ensures head + [COMMA] + tail + closing + rest == head + ([COMMA] + (tail + closing + rest))
  {}

  /** The parser takes one item at a time. */
  lemma ItemsGoOn(t: Text, v: Json, tail: Text)
    requires ParseValue(t) == Some((v, [COMMA] + tail))
    ensures ParseItems(t) == (var more := ParseItems(tail);
                              if more.None? then None else Some(([v] + more.value.0, more.value.1)))
  {
    hide ParseValue;
    assert ([COMMA] + tail)[1..] == tail;
  }

  lemma {:induction false} ItemsParse(items: seq<Json>, rest: Text)
    requires items != [] && forall i :: 0 <= i < |items| ==> Printable(items[i])
    ensures ParseItems(PrintItems(items) + [RBRACKET] + rest) == Some((items, rest))
    decreases items, 0
  {
    hide Print, ParseValue, Printable;
    var t := PrintItems(items) + [RBRACKET] + rest;
    if |items| == 1 {
      ValueParses(items[0], [RBRACKET] + rest);
      assert t == Print(items[0]) + ([RBRACKET] + rest);
      assert items == [items[0]];
    } else {
      var tail := PrintItems(items[1..]) + [RBRACKET] + rest;
      ItemsParse(items[1..], rest);
      ValueParses(items[0], [COMMA] + tail);
      Regroup(Print(items[0]), PrintItems(items[1..]), [RBRACKET], rest);
      ItemsGoOn(t, items[0], tail);
      assert items == [items[0]] + items[1..];
    }
  }

  lemma {:induction false} FieldParses(f: Field, rest: Text)
    requires Printable(f.value) && Delimited(rest)
    ensures ParseField(PrintField(f) + rest) == Some((f, rest))
    decreases f, 2
  {
    hide QuoteBody, ParseBody, Print, ParseValue, Printable;
    var t := PrintField(f) + rest;
    var tail := [COLON] + Print(f.value) + rest;
    BodyParses(f.key, tail);
    ValueParses(f.value, rest);
    assert t[1..] == QuoteBody(f.key) + [QUOTE] + tail;
    assert tail[1..] == Print(f.value) + rest;
  }

  /** The parser takes one field at a time. */
  lemma FieldsGoOn(t: Text, f: Field, tail: Text)
    requires ParseField(t) == Some((f, [COMMA] + tail))
    ensures ParseFields(t) == (var more := ParseFields(tail);
                               if more.None? then None else Some(([f] + more.value.0, more.value.1)))
  {
    hide ParseField;
    assert ([COMMA] + tail)[1..] == tail;
  }

  lemma {:induction false} FieldsParse(fields: seq<Field>, rest: Text)
    requires fields != [] && forall i :: 0 <= i < |fields| ==> Printable(fields[i].value)
    ensures ParseFields(PrintFields(fields) + [RBRACE] + rest) == Some((fields, rest))
    decreases fields, 0
  {
    hide PrintField, ParseField, Printable;
    var t := PrintFields(fields) + [RBRACE] + rest;
    if |fields| == 1 {
      FieldParses(fields[0], [RBRACE] + rest);
      assert t == PrintField(fields[0]) + ([RBRACE] + rest);
      assert fields == [fields[0]];
    } else {
      var tail := PrintFields(fields[1..]) + [RBRACE] + rest;
      FieldsParse(fields[1..], rest);
      FieldParses(fields[0], [COMMA] + tail);
      Regroup(PrintField(fields[0]), PrintFields(fields[1..]), [RBRACE], rest);
      FieldsGoOn(t, fields[0], tail);
      assert fields == [fields[0]] + fields[1..];
    }
  }

  /** `JSON.parse` on a whole text. */
  function Parse(t: Text): Option<Json> {
    var v := ParseValue(t);
    if v.Some? && v.value.1 == [] then Some(v.value.0) else None
  }

  /** Parsing what was printed gives back the value, fields in the same order. */
  lemma RoundTrip(v: Json)
    requires Printable(v)
    ensures Parse(Print(v)) == Some(v)
  {
    ValueParses(v, []);
    assert Print(v) + [] == Print(v);
  }

  /** Different values have different texts. */
  lemma PrintInjective(v: Json, w: Json)
    requires Printable(v) && Printable(w)
    ensures Print(v) == Print(w) <==> v == w
  {
    RoundTrip(v);
    RoundTrip(w);
  }
}
