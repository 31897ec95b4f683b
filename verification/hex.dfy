/** The browser's hex conversions, with what `parseInt` makes of two arbitrary characters. */
module Hex {
  import opened Texts
  import opened Wrappers
  import opened JsonText

  /** White space as `trim` and `parseInt` know it. */
  predicate IsSpace(c: CodeUnit) {
    || 9 <= c <= 13 || c == 0x20 || c == 0xA0 || c == 0x1680 || 0x2000 <= c <= 0x200A
    || c == 0x2028 || c == 0x2029 || c == 0x202F || c == 0x205F || c == 0x3000 || c == 0xFEFF
  }

  /** `parseInt(ab, 16)` as it is stored in a byte: not a number is stored as 0, -1 as 255. */
  function ParsePair(a: CodeUnit, b: CodeUnit): (r: int)
    ensures 0 <= r < 256
  {
    var (x, y) := (HexValue(a), HexValue(b));
    if x.Some? then if y.Some? then 16 * x.value + y.value else x.value
    else if y.None? then 0
    else if IsSpace(a) || a == 0x2B then y.value
    else if a == 0x2D then (256 - y.value) % 256
    else 0
  }

  function ToBytes(hex: Text): seq<int>
    requires |hex| % 2 == 0
  {
    if hex == [] then [] else [ParsePair(hex[0], hex[1])] + ToBytes(hex[2..])
  }

  function ToHex(bytes: seq<int>): Text
    requires forall i :: 0 <= i < |bytes| ==> 0 <= bytes[i] < 256
  {
    if bytes == [] then [] else [HexDigit(bytes[0] / 16), HexDigit(bytes[0] % 16)] + ToHex(bytes[1..])
  }

  predicate IsHexText(t: Text) {
    forall i :: 0 <= i < |t| ==> HexValue(t[i]).Some?
  }

  function LowerUnit(c: CodeUnit): CodeUnit {
    if 0x41 <= c <= 0x5A then c + 0x20 else c
  }

  /** `toLowerCase` on a text without letters beyond ASCII. */
  function Lower(t: Text): (r: Text)
    ensures |r| == |t| && forall i :: 0 <= i < |t| ==> r[i] == LowerUnit(t[i])
  {
    seq(|t|, i requires 0 <= i < |t| => LowerUnit(t[i]))
  }

  lemma {:induction false} ToBytesAt(hex: Text, i: nat)
    requires |hex| % 2 == 0 && i < |hex| / 2
    ensures |ToBytes(hex)| == |hex| / 2 && ToBytes(hex)[i] == ParsePair(hex[2 * i], hex[2 * i + 1])
  {
    if i > 0 {
      ToBytesAt(hex[2..], i - 1);
    } else if |hex| > 2 {
      ToBytesAt(hex[2..], 0);
    }
  }

  method HexToBytes(hex: Text) returns (r: Option<array<int>>)
    ensures r.None? <==> |hex| % 2 != 0
    ensures r.Some? ==> fresh(r.value) && r.value[..] == ToBytes(hex)
  {
    if |hex| % 2 != 0 {
      return None;
    }
    var bytes := new int[|hex| / 2];
    var i := 0;
    while i < |hex|
      invariant 0 <= i <= |hex| && i % 2 == 0
      invariant forall k :: 0 <= k < i / 2 ==> bytes[k] == ParsePair(hex[2 * k], hex[2 * k + 1])
    {
      bytes[i / 2] := ParsePair(hex[i], hex[i + 1]);
      i := i + 2;
    }
    forall k | 0 <= k < bytes.Length ensures |ToBytes(hex)| == bytes.Length && bytes[k] == ToBytes(hex)[k] {
      ToBytesAt(hex, k);
    }
    ToBytesAreBytes(hex);
    r := Some(bytes);
  }

  method BytesToHex(bytes: array<int>) returns (hex: Text)
    requires forall i :: 0 <= i < bytes.Length ==> 0 <= bytes[i] < 256
    ensures hex == ToHex(bytes[..])
  {
    hex := [];
    for i := 0 to bytes.Length
      invariant hex == ToHex(bytes[..i])
    {
      ToHexAppend(bytes[..i], bytes[i]);
      assert bytes[..i + 1] == bytes[..i] + [bytes[i]];
      hex := hex + [HexDigit(bytes[i] / 16), HexDigit(bytes[i] % 16)];
    }
    assert bytes[..bytes.Length] == bytes[..];
  }

  lemma {:induction false} ToHexAppend(bytes: seq<int>, b: int)
    requires 0 <= b < 256 && forall i :: 0 <= i < |bytes| ==> 0 <= bytes[i] < 256
    ensures ToHex(bytes + [b]) == ToHex(bytes) + [HexDigit(b / 16), HexDigit(b % 16)]
  {
    if bytes == [] {
      assert bytes + [b] == [b];
    } else {
      assert (bytes + [b])[1..] == bytes[1..] + [b];
      ToHexAppend(bytes[1..], b);
    }
  }

  /** Every byte sequence comes back from its hex text. */
  lemma {:induction false} BytesRoundTrip(bytes: seq<int>)
    requires forall i :: 0 <= i < |bytes| ==> 0 <= bytes[i] < 256
    ensures |ToHex(bytes)| == 2 * |bytes| && ToBytes(ToHex(bytes)) == bytes
  {
    if bytes != [] {
      BytesRoundTrip(bytes[1..]);
      HexDigitValue(bytes[0] / 16);
      HexDigitValue(bytes[0] % 16);
      assert ToHex(bytes)[2..] == ToHex(bytes[1..]);
    }
  }

  lemma LowerDigit(c: CodeUnit)
    ensures HexValue(c).Some? ==> LowerUnit(c) == HexDigit(HexValue(c).value)
    ensures HexValue(LowerUnit(c)) == HexValue(c)
  {}

  lemma {:induction false} ToBytesAreBytes(hex: Text)
    requires |hex| % 2 == 0
    ensures |ToBytes(hex)| == |hex| / 2
    ensures forall i :: 0 <= i < |ToBytes(hex)| ==> 0 <= ToBytes(hex)[i] < 256
  {
    if hex != [] {
      ToBytesAreBytes(hex[2..]);
    }
  }

  lemma PairRoundTrip(a: CodeUnit, b: CodeUnit)
    ensures var n := ParsePair(a, b);
            [HexDigit(n / 16), HexDigit(n % 16)] == [LowerUnit(a), LowerUnit(b)] <==> HexValue(a).Some? && HexValue(b).Some?
  {
    LowerDigit(a);
    LowerDigit(b);
    HexDigitValue(ParsePair(a, b) / 16);
    HexDigitValue(ParsePair(a, b) % 16);
  }

  /** A text of even length comes back from its bytes, in lower case, exactly when it is all hex digits. */
  lemma {:induction false} HexRoundTripExactly(hex: Text)
    requires |hex| % 2 == 0
    ensures |ToBytes(hex)| == |hex| / 2 && forall i :: 0 <= i < |ToBytes(hex)| ==> 0 <= ToBytes(hex)[i] < 256
    ensures ToHex(ToBytes(hex)) == Lower(hex) <==> IsHexText(hex)
  {
    ToBytesAreBytes(hex);
    if hex != [] {
      HexRoundTripExactly(hex[2..]);
      PairRoundTrip(hex[0], hex[1]);
      var n := ParsePair(hex[0], hex[1]);
      assert ToBytes(hex)[1..] == ToBytes(hex[2..]);
      assert ToHex(ToBytes(hex)) == [HexDigit(n / 16), HexDigit(n % 16)] + ToHex(ToBytes(hex[2..]));
      assert Lower(hex) == [LowerUnit(hex[0]), LowerUnit(hex[1])] + Lower(hex[2..]);
      PairAndRest(HexDigit(n / 16), HexDigit(n % 16), ToHex(ToBytes(hex[2..])), LowerUnit(hex[0]), LowerUnit(hex[1]), Lower(hex[2..]));
      HexTextSplits(hex);
    }
  }

  lemma PairAndRest(a: CodeUnit, b: CodeUnit, r: Text, x: CodeUnit, y: CodeUnit, s: Text)
    ensures [a, b] + r == [x, y] + s <==> [a, b] == [x, y] && r == s
  {
    assert ([a, b] + r)[2..] == r && ([x, y] + s)[2..] == s;
    assert ([a, b] + r)[..2] == [a, b] && ([x, y] + s)[..2] == [x, y];
  }

  lemma HexTextSplits(hex: Text)
    requires |hex| >= 2
    ensures IsHexText(hex) <==> HexValue(hex[0]).Some? && HexValue(hex[1]).Some? && IsHexText(hex[2..])
  {
    if HexValue(hex[0]).Some? && HexValue(hex[1]).Some? && IsHexText(hex[2..]) {
      forall i | 0 <= i < |hex| ensures HexValue(hex[i]).Some? {
        if i >= 2 {
          assert hex[i] == hex[2..][i - 2];
        }
      }
    }
  }
}
