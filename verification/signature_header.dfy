/** The signature header: its printer, its parser, and when the parser takes a header back. */
module SignatureHeader {
  import opened Texts
  import opened Wrappers
  import opened JsonText
  import opened Hex

  const EQUALS: CodeUnit := 0x3D
  const KEY_T: Text := [0x74]
  const KEY_NONCE: Text := [0x6E, 0x6F, 0x6E, 0x63, 0x65]
  const KEY_V1: Text := [0x76, 0x31]

  // ----- splitting and trimming -----

  function Split(t: Text, sep: CodeUnit): (r: seq<Text>)
    ensures r != [] && forall i :: 0 <= i < |r| ==> sep !in r[i]
  {
    if t == [] then [[]]
    else if t[0] == sep then [[]] + Split(t[1..], sep)
    else
      var rest := Split(t[1..], sep);
      [[t[0]] + rest[0]] + rest[1..]
  }

  function TrimStart(t: Text): (r: Text)
    ensures |r| <= |t| && (r != [] ==> !IsSpace(r[0]))
    ensures forall c :: c in r ==> c in t
  {
    if t != [] && IsSpace(t[0]) then TrimStart(t[1..]) else t
  }

  function TrimEnd(t: Text): (r: Text)
    ensures r <= t && (r != [] ==> !IsSpace(r[|r| - 1]))
  {
    if t != [] && IsSpace(t[|t| - 1]) then TrimEnd(t[..|t| - 1]) else t
  }

  function Trim(t: Text): Text {
    TrimEnd(TrimStart(t))
  }

  predicate Trimmed(t: Text) {
    t != [] ==> !IsSpace(t[0]) && !IsSpace(t[|t| - 1])
  }

  lemma TrimExactly(t: Text)
    ensures Trimmed(Trim(t)) && (Trim(t) == t <==> Trimmed(t))
    ensures forall c :: c in Trim(t) ==> c in t
  {
    var s := TrimStart(t);
    if Trim(t) != [] {
      assert Trim(t)[0] == s[0];
    }
    forall c | c in Trim(t) ensures c in t {
      assert c in s;
    }
    if Trim(t) == t && t != [] {
      assert |s| == |t|;
    }
  }

  /** The position of the first separator, or the length of the text. */
  function IndexOf(t: Text, sep: CodeUnit): (i: nat)
    ensures i <= |t| && (i < |t| ==> t[i] == sep) && sep !in t[..i]
    ensures i == |t| <==> sep !in t
  {
    if t == [] || t[0] == sep then 0 else
    var i := IndexOf(t[1..], sep);
    assert t[..i + 1] == [t[0]] + t[1..][..i];
    assert t == [t[0]] + t[1..];
    i + 1
  }

  // ----- the parser -----

  /** What `Number` makes of a text: not a number, or a number. */
  type NumberOf = Text -> Option<real>

  datatype Parsed = Parsed(timestamp: real, nonce: Text, signature: Text)

  function PartKey(part: Text): Text
    requires EQUALS in part
  {
    Trim(part[..IndexOf(part, EQUALS)])
  }

  function PartValue(part: Text): Text
    requires EQUALS in part
  {
    Trim(part[IndexOf(part, EQUALS) + 1..])
  }

  function TimestampIn(part: Text, number: NumberOf): Option<real> {
    if EQUALS in part && PartKey(part) == KEY_T && number(PartValue(part)).Some? && number(PartValue(part)).value > 0.0
    then number(PartValue(part)) else None
  }

  function NonceIn(part: Text): Option<Text> {
    if EQUALS in part && PartKey(part) == KEY_NONCE && 8 <= |PartValue(part)| <= 128 then Some(PartValue(part)) else None
  }

  predicate IsSignature(t: Text) {
    |t| == 64 && IsHexText(t)
  }

  function SignatureIn(part: Text): Option<Text> {
    if EQUALS in part && PartKey(part) == KEY_V1 && IsSignature(PartValue(part)) then Some(Lower(PartValue(part))) else None
  }

  /** What the last part that has a value says. */
  function Latest<T>(parts: seq<Text>, value: Text -> Option<T>): Option<T> {
    if parts == [] then None
    else if value(parts[|parts| - 1]).Some? then value(parts[|parts| - 1])
    else Latest(parts[..|parts| - 1], value)
  }

  function TrimAll(parts: seq<Text>): (r: seq<Text>)
    ensures |r| == |parts| && forall i :: 0 <= i < |parts| ==> r[i] == Trim(parts[i])
  {
    seq(|parts|, i requires 0 <= i < |parts| => Trim(parts[i]))
  }

  function ParseHeader(header: Text, number: NumberOf): Option<Parsed> {
    var parts := TrimAll(Split(header, COMMA));
    var t := Latest(parts, p => TimestampIn(p, number));
    var n := Latest(parts, NonceIn);
    var s := Latest(parts, SignatureIn);
    if header != [] && t.Some? && n.Some? && s.Some? then Some(Parsed(t.value, n.value, s.value)) else None
  }

  method ParseSignatureHeader(header: Text, number: NumberOf) returns (r: Option<Parsed>)
    ensures r == ParseHeader(header, number)
  {
    hide Trim, IndexOf, IsHexText, Lower, Split;
    if header == [] {
      return None;
    }
    var parts := TrimAll(Split(header, COMMA));
    var timestamp: Option<real>, nonce: Option<Text>, signature: Option<Text> := None, None, None;
    for i := 0 to |parts|
      invariant timestamp == Latest(parts[..i], p => TimestampIn(p, number))
      invariant nonce == Latest(parts[..i], NonceIn)
      invariant signature == Latest(parts[..i], SignatureIn)
    {
      var part := parts[i];
      assert parts[..i + 1][..i] == parts[..i];
      var eq := IndexOf(part, EQUALS);
      if eq == |part| {
        continue;
      }
      var k, v := Trim(part[..eq]), Trim(part[eq + 1..]);
      if k == KEY_T {
        var parsed := number(v);
        if parsed.Some? && parsed.value > 0.0 {
          timestamp := parsed;
        }
      } else if k == KEY_NONCE {
        if 8 <= |v| <= 128 {
          nonce := Some(v);
        }
      } else if k == KEY_V1 {
        if IsSignature(v) {
          signature := Some(Lower(v));
        }
      }
    }
    assert parts[..|parts|] == parts;
    if timestamp.None? || nonce.None? || signature.None? {
      return None;
    }
    r := Some(Parsed(timestamp.value, nonce.value, signature.value));
  }

  // ----- the printer -----

  function Decimal(n: nat): Text {
    if n < 10 then [0x30 + n] else Decimal(n / 10) + [0x30 + n % 10]
  }

  function PrintHeader(timestamp: nat, nonce: Text, signature: Text): Text {
    KEY_T + [EQUALS] + Decimal(timestamp) + [COMMA] + KEY_NONCE + [EQUALS] + nonce + [COMMA] + KEY_V1 + [EQUALS] + signature
  }

  ghost predicate ReadsDecimals(number: NumberOf) {
    forall n: nat :: number(Decimal(n)) == Some(n as real)
  }

  lemma {:induction false} DecimalDigits(n: nat)
    ensures Decimal(n) != [] && forall i :: 0 <= i < |Decimal(n)| ==> 0x30 <= Decimal(n)[i] <= 0x39
  {
    if n >= 10 {
      DecimalDigits(n / 10);
    }
  }

  lemma {:induction false} SplitAt(a: Text, rest: Text, sep: CodeUnit)
    requires sep !in a
    ensures Split(a + [sep] + rest, sep) == [a] + Split(rest, sep)
  {
    var t := a + [sep] + rest;
    if a == [] {
      assert t[1..] == rest;
    } else {
      assert t[1..] == a[1..] + [sep] + rest;
      SplitAt(a[1..], rest, sep);
      assert a == [a[0]] + a[1..];
    }
  }

  lemma {:induction false} SplitNone(a: Text, sep: CodeUnit)
    requires sep !in a
    ensures Split(a, sep) == [a]
  {
    if a != [] {
      SplitNone(a[1..], sep);
      assert a == [a[0]] + a[1..];
    }
  }

  lemma {:induction false} IndexAfter(a: Text, rest: Text, sep: CodeUnit)
    requires sep !in a
    ensures IndexOf(a + [sep] + rest, sep) == |a|
  {
    if a != [] {
      assert (a + [sep] + rest)[1..] == a[1..] + [sep] + rest;
      IndexAfter(a[1..], rest, sep);
    }
  }

  /** A part made of a key and a trimmed value gives them back. */
  lemma PartReads(key: Text, value: Text)
    requires EQUALS !in key && Trimmed(key) && key != [] && Trimmed(value) && value != []
    ensures var part := key + [EQUALS] + value;
            EQUALS in part && Trim(part) == part && PartKey(part) == key && PartValue(part) == value
  {
    hide TrimStart, TrimEnd, Trim, IsSpace, IndexOf;
    var part := key + [EQUALS] + value;
    assert part[|key|] == EQUALS;
    IndexAfter(key, value, EQUALS);
    TrimExactly(part);
    TrimExactly(key);
    TrimExactly(value);
    assert part[..|key|] == key && part[|key| + 1..] == value;
  }

  lemma {:induction false} LatestComesFrom<T>(parts: seq<Text>, value: Text -> Option<T>)
    requires Latest(parts, value).Some?
    ensures exists i :: 0 <= i < |parts| && value(parts[i]) == Latest(parts, value)
  {
    if value(parts[|parts| - 1]).None? {
      LatestComesFrom(parts[..|parts| - 1], value);
      var i :| 0 <= i < |parts| - 1 && value(parts[..|parts| - 1][i]) == Latest(parts[..|parts| - 1], value);
      assert value(parts[i]) == Latest(parts, value);
    }
  }

  /** Whatever the header, the timestamp that the parser returns is positive and the signature 64 hex
      digits in lower case. */
  lemma ParsedValues(header: Text, number: NumberOf)
    requires ParseHeader(header, number).Some?
    ensures var p := ParseHeader(header, number).value;
            p.timestamp > 0.0 && IsSignature(p.signature) && Lower(p.signature) == p.signature
  {
    hide Trim, Split, PartKey, PartValue, IndexOf, IsHexText;
    var parts := TrimAll(Split(header, COMMA));
    LatestComesFrom(parts, p => TimestampIn(p, number));
    LatestComesFrom(parts, SignatureIn);
    var i :| 0 <= i < |parts| && SignatureIn(parts[i]) == Latest(parts, SignatureIn);
    LowerSignature(PartValue(parts[i]));
  }

  lemma LowerSignature(t: Text)
    requires IsSignature(t)
    ensures IsSignature(Lower(t)) && Lower(Lower(t)) == Lower(t)
  {
    forall i | 0 <= i < |t| ensures HexValue(Lower(t)[i]).Some? {
      assert HexValue(t[i]).Some?;
    }
  }

  /** Whatever the header, a nonce that the parser returns is trimmed, without a comma and of 8 to
      128 characters. */
  lemma ParsedNonce(header: Text, number: NumberOf)
    requires ParseHeader(header, number).Some?
    ensures var nonce := ParseHeader(header, number).value.nonce;
            Trimmed(nonce) && COMMA !in nonce && 8 <= |nonce| <= 128
  {
    var split := Split(header, COMMA);
    var parts := TrimAll(split);
    LatestComesFrom(parts, NonceIn);
    var i :| 0 <= i < |parts| && NonceIn(parts[i]) == Latest(parts, NonceIn);
    TrimExactly(split[i]);
    var tail := parts[i][IndexOf(parts[i], EQUALS) + 1..];
    TrimExactly(tail);
    assert COMMA !in parts[i];
  }

  lemma {:induction false} SplitLast(t: Text, part: Text, sep: CodeUnit)
    requires sep !in part
    ensures Split(t + [sep] + part, sep) == Split(t, sep) + [part]
  {
    var all := t + [sep] + part;
    if t == [] {
      assert all[1..] == part;
      SplitNone(part, sep);
    } else {
      assert all[1..] == t[1..] + [sep] + part;
      SplitLast(t[1..], part, sep);
    }
  }

  lemma LatestOn<T>(parts: seq<Text>, part: Text, value: Text -> Option<T>)
    ensures Latest(parts + [part], value) == if value(part).Some? then value(part) else Latest(parts, value)
  {
    assert (parts + [part])[..|parts|] == parts;
  }

  /** Whatever a header says, a part that follows it overrides what it has a valid value for, and nothing
      else: unknown keys, malformed parts and invalid values change nothing. */
  lemma LaterPartWins(header: Text, part: Text, number: NumberOf)
    requires COMMA !in part && ParseHeader(header, number).Some?
    ensures var before, said := ParseHeader(header, number).value, Trim(part);
            ParseHeader(header + [COMMA] + part, number) ==
            Some(Parsed(if TimestampIn(said, number).Some? then TimestampIn(said, number).value else before.timestamp,
                        if NonceIn(said).Some? then NonceIn(said).value else before.nonce,
                        if SignatureIn(said).Some? then SignatureIn(said).value else before.signature))
  {
    hide Trim, Split, TimestampIn, NonceIn, SignatureIn;
    SplitLast(header, part, COMMA);
    var parts, all := TrimAll(Split(header, COMMA)), TrimAll(Split(header + [COMMA] + part, COMMA));
    assert all == parts + [Trim(part)];
    LatestOn(parts, Trim(part), p => TimestampIn(p, number));
    LatestOn(parts, Trim(part), NonceIn);
    LatestOn(parts, Trim(part), SignatureIn);
  }

  /** The three parts of a printed header. */
  lemma PrintedParts(timestamp: nat, nonce: Text, signature: Text)
    requires COMMA !in nonce && COMMA !in signature
    ensures Split(PrintHeader(timestamp, nonce, signature), COMMA) ==
            [KEY_T + [EQUALS] + Decimal(timestamp), KEY_NONCE + [EQUALS] + nonce, KEY_V1 + [EQUALS] + signature]
  {
    DecimalDigits(timestamp);
    var t := KEY_T + [EQUALS] + Decimal(timestamp);
    var n := KEY_NONCE + [EQUALS] + nonce;
    var v := KEY_V1 + [EQUALS] + signature;
    assert COMMA !in t && COMMA !in n && COMMA !in v;
    assert PrintHeader(timestamp, nonce, signature) == t + [COMMA] + (n + [COMMA] + v);
    SplitAt(t, n + [COMMA] + v, COMMA);
    SplitAt(n, v, COMMA);
    SplitNone(v, COMMA);
  }

  predicate IsNonce(nonce: Text) {
    Trimmed(nonce) && COMMA !in nonce && 8 <= |nonce| <= 128
  }

  lemma HexTrimmed(t: Text)
    requires IsHexText(t)
    ensures Trimmed(t) && COMMA !in t
  {
    forall i | 0 <= i < |t| ensures t[i] != COMMA && !IsSpace(t[i]) {
      assert HexValue(t[i]).Some?;
    }
  }

  lemma TimestampPart(timestamp: nat, number: NumberOf)
    requires timestamp > 0 && ReadsDecimals(number)
    ensures var part := KEY_T + [EQUALS] + Decimal(timestamp);
            Trim(part) == part && TimestampIn(part, number) == Some(timestamp as real)
  {
    DecimalDigits(timestamp);
    PartReads(KEY_T, Decimal(timestamp));
  }

  lemma NoncePart(nonce: Text)
    requires IsNonce(nonce)
    ensures var part := KEY_NONCE + [EQUALS] + nonce;
            Trim(part) == part && NonceIn(part) == Some(nonce) && forall number :: TimestampIn(part, number) == None
  {
    PartReads(KEY_NONCE, nonce);
  }

  lemma SignaturePart(signature: Text)
    requires IsSignature(signature)
    ensures var part := KEY_V1 + [EQUALS] + signature;
            && Trim(part) == part && SignatureIn(part) == Some(Lower(signature))
            && NonceIn(part) == None && forall number :: TimestampIn(part, number) == None
  {
    HexTrimmed(signature);
    PartReads(KEY_V1, signature);
  }

  lemma {:induction false} PrintedParses(timestamp: nat, nonce: Text, signature: Text, number: NumberOf)
    requires timestamp > 0 && IsSignature(signature) && ReadsDecimals(number) && IsNonce(nonce)
    ensures ParseHeader(PrintHeader(timestamp, nonce, signature), number) ==
            Some(Parsed(timestamp as real, nonce, Lower(signature)))
  {
    hide TimestampIn, NonceIn, SignatureIn, Split, Trim, Latest, ReadsDecimals, IsSignature, IsNonce, PrintHeader;
    var t := KEY_T + [EQUALS] + Decimal(timestamp);
    var n := KEY_NONCE + [EQUALS] + nonce;
    var v := KEY_V1 + [EQUALS] + signature;
    TimestampPart(timestamp, number);
    NoncePart(nonce);
    SignaturePart(signature);
    CommaFree(nonce, signature);
    PrintedParts(timestamp, nonce, signature);
    assert TrimAll(Split(PrintHeader(timestamp, nonce, signature), COMMA)) == [t, n, v];
    ThreeParts(t, n, v, p => TimestampIn(p, number));
    ThreeParts(t, n, v, NonceIn);
    ThreeParts(t, n, v, SignatureIn);
    HeaderNotEmpty(timestamp, nonce, signature);
  }

  lemma CommaFree(nonce: Text, signature: Text)
    requires IsNonce(nonce) && IsSignature(signature)
    ensures COMMA !in nonce && COMMA !in signature
  {
    HexTrimmed(signature);
  }

  lemma HeaderNotEmpty(timestamp: nat, nonce: Text, signature: Text)
    ensures PrintHeader(timestamp, nonce, signature) != []
  {}

  lemma ThreeParts<T>(a: Text, b: Text, c: Text, value: Text -> Option<T>)
    ensures Latest([a, b, c], value) ==
            if value(c).Some? then value(c) else if value(b).Some? then value(b) else if value(a).Some? then value(a) else None
  {
    var one: seq<Text>, two: seq<Text>, three: seq<Text> := [a], [a, b], [a, b, c];
    assert three[..2] == two && two[..1] == one && one[..0] == [];
    assert Latest(one, value) == if value(a).Some? then value(a) else None;
    assert Latest(two, value) == if value(b).Some? then value(b) else Latest(one, value);
    assert Latest(three, value) == if value(c).Some? then value(c) else Latest(two, value);
  }

  /** A header of a positive timestamp and a hex signature comes back, the signature in lower case,
      exactly when the nonce is trimmed, without a comma and of 8 to 128 characters. */
  lemma HeaderRoundTripExactly(timestamp: nat, nonce: Text, signature: Text, number: NumberOf)
    requires timestamp > 0 && IsSignature(signature) && ReadsDecimals(number)
    ensures var read := ParseHeader(PrintHeader(timestamp, nonce, signature), number);
            read == Some(Parsed(timestamp as real, nonce, Lower(signature))) <==> IsNonce(nonce)
  {
    if IsNonce(nonce) {
      PrintedParses(timestamp, nonce, signature, number);
    } else if ParseHeader(PrintHeader(timestamp, nonce, signature), number).Some? {
      ParsedNonce(PrintHeader(timestamp, nonce, signature), number);
    }
  }
}
