/** A signed request from end to end: what the two clients sign, what the server verifies, and when
    the server accepts. The hash and the message authentication code are parameters. */
module SignedRequest {
  import opened Texts
  import opened Wrappers
  import opened JsonText
  import opened CanonicalJson
  import opened SignedBody
  import opened Hex
  import opened SignatureHeader

  const DOT: CodeUnit := 0x2E
  const QUESTION: CodeUnit := 0x3F

  type Sha = Text -> Text
  type Mac = (seq<int>, Text) -> Text

  function UpperUnit(c: CodeUnit): CodeUnit {
    if 0x61 <= c <= 0x7A then c - 0x20 else c
  }

  function Upper(t: Text): Text {
    seq(|t|, i requires 0 <= i < |t| => UpperUnit(t[i]))
  }

  /** Methods are signed alike exactly when they differ in the case of ASCII letters only. */
  lemma UpperExactly(a: Text, b: Text)
    ensures Upper(a) == Upper(b) <==> Lower(a) == Lower(b)
  {
    if Upper(a) == Upper(b) {
      forall i | 0 <= i < |a| ensures Lower(a)[i] == Lower(b)[i] {
        assert Upper(a)[i] == Upper(b)[i];
      }
    }
    if Lower(a) == Lower(b) {
      forall i | 0 <= i < |a| ensures Upper(a)[i] == Upper(b)[i] {
        assert Lower(a)[i] == Lower(b)[i];
      }
    }
  }

  /** `path.split('?')[0]` */
  function StripQuery(path: Text): Text {
    Split(path, QUESTION)[0]
  }

  function StringToSign(timestamp: Text, nonce: Text, verb: Text, path: Text, hash: Text): Text {
    timestamp + [DOT] + (nonce + [DOT] + (verb + [DOT] + (path + [DOT] + hash)))
  }

  // ----- what a signed string says -----

  lemma CutFirst(a: Text, r: Text, b: Text, s: Text)
    requires DOT !in a && DOT !in b
    ensures a + [DOT] + r == b + [DOT] + s <==> a == b && r == s
  {
    if a + [DOT] + r == b + [DOT] + s {
      IndexAfter(a, r, DOT);
      IndexAfter(b, s, DOT);
      assert a == (a + [DOT] + r)[..|a|] && b == (b + [DOT] + s)[..|a|];
      assert r == (a + [DOT] + r)[|a| + 1..] && s == (b + [DOT] + s)[|a| + 1..];
    }
  }

  lemma NoDotAfter(p: Text, h: Text)
    requires DOT !in h
    ensures var t := p + [DOT] + h; t[|p|] == DOT && forall i :: |p| < i < |t| ==> t[i] != DOT
  {
    var t := p + [DOT] + h;
    forall i | |p| < i < |t| ensures t[i] != DOT {
      assert t[i] == h[i - |p| - 1];
    }
  }

  lemma CutLast(p: Text, h: Text, q: Text, g: Text)
    requires DOT !in h && DOT !in g
    ensures p + [DOT] + h == q + [DOT] + g <==> p == q && h == g
  {
    var t, u := p + [DOT] + h, q + [DOT] + g;
    NoDotAfter(p, h);
    NoDotAfter(q, g);
    if t == u {
      assert |p| == |q|;
      assert p == t[..|p|] && q == u[..|p|] && h == t[|p| + 1..] && g == u[|p| + 1..];
    }
  }

  lemma DecimalParts(n: nat)
    ensures |Decimal(n)| == 1 <==> n < 10
    ensures Decimal(n) == (if n < 10 then [] else Decimal(n / 10)) + [0x30 + n % 10]
  {
    DecimalDigits(n / 10);
  }

  lemma {:induction false} DecimalInjective(m: nat, n: nat)
    ensures Decimal(m) == Decimal(n) <==> m == n
  {
    DecimalParts(m);
    DecimalParts(n);
    if m >= 10 && n >= 10 {
      DecimalInjective(m / 10, n / 10);
      assert Decimal(m)[..|Decimal(m)| - 1] == Decimal(m / 10);
      assert Decimal(n)[..|Decimal(n)| - 1] == Decimal(n / 10);
    }
    assert Decimal(m)[|Decimal(m)| - 1] == 0x30 + m % 10;
    assert Decimal(n)[|Decimal(n)| - 1] == 0x30 + n % 10;
  }

  /** One signed string, one request: with nonces and methods free of dots no two requests are signed
      alike. */
  lemma StringDeterminesRequest(t1: nat, n1: Text, m1: Text, p1: Text, h1: Text, t2: nat, n2: Text, m2: Text, p2: Text, h2: Text)
    requires DOT !in n1 && DOT !in n2 && DOT !in m1 && DOT !in m2 && DOT !in h1 && DOT !in h2
    ensures StringToSign(Decimal(t1), n1, m1, p1, h1) == StringToSign(Decimal(t2), n2, m2, p2, h2) <==>
            t1 == t2 && n1 == n2 && m1 == m2 && p1 == p2 && h1 == h2
  {
    DecimalDigits(t1);
    DecimalDigits(t2);
    DecimalInjective(t1, t2);
    var (r1, r2) := (Tail(p1, h1), Tail(p2, h2));
    CutFirst(Decimal(t1), n1 + [DOT] + (m1 + [DOT] + r1), Decimal(t2), n2 + [DOT] + (m2 + [DOT] + r2));
    CutFirst(n1, m1 + [DOT] + r1, n2, m2 + [DOT] + r2);
    CutFirst(m1, r1, m2, r2);
    CutLast(p1, h1, p2, h2);
  }

  function Tail(path: Text, hash: Text): Text {
    path + [DOT] + hash
  }

  /** A dot in the nonce is enough for two requests to be signed alike. */
  lemma DottedNonceCollides(t: Text, nonce: Text, m1: Text, m2: Text, path: Text, hash: Text)
    ensures StringToSign(t, nonce + [DOT] + m1, m2, path, hash) == StringToSign(t, nonce, m1, m2 + [DOT] + path, hash)
  {
    assert nonce + [DOT] + m1 + [DOT] + (m2 + [DOT] + (path + [DOT] + hash)) ==
           nonce + [DOT] + (m1 + [DOT] + (m2 + [DOT] + path + [DOT] + hash));
  }

  // ----- the server -----

  /** `Number` on decimals, and a number printed into a string. */
  datatype Numbers = Numbers(read: NumberOf, show: real -> Text)

  ghost predicate Decimals(n: Numbers) {
    ReadsDecimals(n.read) && forall i: nat :: n.show(i as real) == Decimal(i)
  }

  /** `verifySignatureConstantTime` */
  predicate SignaturesMatch(actual: Text, expected: Text) {
    && actual != [] && expected != []
    && |actual| % 2 == 0 && |expected| % 2 == 0
    && |ToBytes(actual)| == |ToBytes(expected)| == 32
    && ToBytes(actual) == ToBytes(expected)
  }

  /** Whether the header is a signature of the request under the attempt's key. The key is used as a
      text. */
  predicate Verifies(header: Text, key: Text, verb: Text, url: Text, body: Text, sha: Sha, mac: Mac, numbers: Numbers) {
    var parsed, read := ParseHeader(header, numbers.read), ServerText(body);
    && parsed.Some? && read.Some?
    && var p := parsed.value;
       SignaturesMatch(p.signature,
                       mac(key, StringToSign(numbers.show(p.timestamp), p.nonce, Upper(verb), StripQuery(url), sha(read.value))))
  }

  // ----- the load generator -----

  /** What is sent for a body: a string as it is, any other value in canonical form. */
  function GeneratorBody(v: Json): Text {
    if v.Str? then v.s else CanonicalText(v)
  }

  function GeneratorHeader(timestamp: nat, nonce: Text, key: Text, verb: Text, path: Text, v: Json, sha: Sha, mac: Mac): Text {
    PrintHeader(timestamp, nonce,
                mac(key, StringToSign(Decimal(timestamp), nonce, Upper(verb), path, sha(GeneratorBody(v)))))
  }

  // ----- the browser -----

  /** The browser signs the text it sends, with the bytes that the key's hex text stands for. */
  function BrowserHeader(timestamp: nat, nonce: Text, key: Text, verb: Text, path: Text, body: Text, sha: Sha, mac: Mac): Text
    requires |key| % 2 == 0
  {
    PrintHeader(timestamp, nonce,
                mac(ToBytes(key), StringToSign(Decimal(timestamp), nonce, Upper(verb), StripQuery(path), sha(body))))
  }

  // ----- acceptance -----

  /** A lower-case hex text of a 32-byte digest. */
  predicate IsDigest(t: Text) {
    IsSignature(t) && Lower(t) == t
  }

  ghost predicate Digests(sha: Sha, mac: Mac) {
    (forall t :: IsDigest(sha(t))) && forall k, t :: IsDigest(mac(k, t))
  }

  lemma DigestsMatch(a: Text, b: Text)
    requires IsDigest(a) && IsDigest(b)
    ensures SignaturesMatch(a, b) <==> a == b
  {
    HexRoundTripExactly(a);
    HexRoundTripExactly(b);
  }

  lemma DigestHasNoDot(t: Text)
    requires IsDigest(t)
    ensures DOT !in t
  {
    forall i | 0 <= i < |t| ensures t[i] != DOT {
      assert HexValue(t[i]).Some?;
    }
  }

  lemma StripQueryExactly(path: Text)
    ensures StripQuery(path) == path <==> QUESTION !in path
  {
    if QUESTION !in path {
      SplitNone(path, QUESTION);
    }
  }

  /** Verifying a printed header compares two codes. */
  lemma VerifiesPrinted(timestamp: nat, nonce: Text, code: Text, key: Text, verb: Text, url: Text, body: Text,
                        sha: Sha, mac: Mac, numbers: Numbers)
    requires timestamp > 0 && IsNonce(nonce) && IsDigest(code) && Digests(sha, mac) && Decimals(numbers)
    ensures Verifies(PrintHeader(timestamp, nonce, code), key, verb, url, body, sha, mac, numbers) <==>
            ServerText(body).Some? &&
            code == mac(key, StringToSign(Decimal(timestamp), nonce, Upper(verb), StripQuery(url), sha(ServerText(body).value)))
  {
    hide PrintHeader, ParseHeader, ServerText, StringToSign, IsDigest, SignaturesMatch;
    DigestIsSignature(code);
    HeaderRoundTripExactly(timestamp, nonce, code, numbers.read);
    if ServerText(body).Some? {
      DigestsMatch(code, mac(key, StringToSign(Decimal(timestamp), nonce, Upper(verb), StripQuery(url), sha(ServerText(body).value))));
    }
  }

  lemma DigestIsSignature(code: Text)
    requires IsDigest(code)
    ensures IsSignature(code) && Lower(code) == code
  {}

  /** Short of collisions between the two hashes and the two codes at hand, the server accepts a
      request of the load generator exactly when its path has no query and the server reads its body
      back as it was sent. */
  lemma GeneratorAcceptedExactly(timestamp: nat, nonce: Text, key: Text, verb: Text, path: Text, v: Json,
                                 sha: Sha, mac: Mac, numbers: Numbers)
    requires timestamp > 0 && IsNonce(nonce) && Plain(v) && !v.Str? && Digests(sha, mac) && Decimals(numbers)
    requires var (sent, read) := (CanonicalText(v), ServerText(CanonicalText(v)));
             read.Some? ==>
               && (sha(sent) == sha(read.value) ==> sent == read.value)
               && (var (a, b) := (StringToSign(Decimal(timestamp), nonce, Upper(verb), path, sha(sent)),
                                  StringToSign(Decimal(timestamp), nonce, Upper(verb), StripQuery(path), sha(read.value)));
                   mac(key, a) == mac(key, b) ==> a == b)
    ensures Verifies(GeneratorHeader(timestamp, nonce, key, verb, path, v, sha, mac), key, verb, path, GeneratorBody(v),
                     sha, mac, numbers)
            <==> QUESTION !in path && Signable(Norm(v))
  {
    hide PrintHeader, Verifies, ServerText, CanonicalText, IsDigest, Signable;
    var sent := CanonicalText(v);
    var read := ServerText(sent);
    var a := StringToSign(Decimal(timestamp), nonce, Upper(verb), path, sha(sent));
    VerifiesPrinted(timestamp, nonce, mac(key, a), key, verb, path, sent, sha, mac, numbers);
    CanonicalAgreesExactly(v);
    StripQueryExactly(path);
    if read.Some? {
      DigestHasNoDot(sha(sent));
      DigestHasNoDot(sha(read.value));
      SameButForPathAndHash(Decimal(timestamp), nonce, Upper(verb), path, sha(sent), StripQuery(path), sha(read.value));
    }
  }

  lemma SameButForPathAndHash(t: Text, n: Text, m: Text, p: Text, h: Text, q: Text, g: Text)
    requires DOT !in h && DOT !in g
    ensures StringToSign(t, n, m, p, h) == StringToSign(t, n, m, q, g) <==> p == q && h == g
  {
    CutLast(p, h, q, g);
    Prefixed(m + [DOT], p + [DOT] + h, q + [DOT] + g);
    Prefixed(n + [DOT], m + [DOT] + (p + [DOT] + h), m + [DOT] + (q + [DOT] + g));
    Prefixed(t + [DOT], n + [DOT] + (m + [DOT] + (p + [DOT] + h)), n + [DOT] + (m + [DOT] + (q + [DOT] + g)));
  }

  lemma Prefixed(a: Text, r: Text, s: Text)
    ensures a + r == a + s <==> r == s
  {
    assert (a + r)[|a|..] == r && (a + s)[|a|..] == s;
  }

  /** The bytes that a hex text stands for are never the units of the text. */
  lemma KeysDiffer(key: Text)
    requires |key| % 2 == 0 && key != []
    ensures ToBytes(key) != key
  {
    ToBytesAreBytes(key);
    assert |ToBytes(key)| != |key|;
  }

  /** Verifying a browser request, whatever its body and path, compares a code under the decoded key
      with one under the key's text. */
  lemma BrowserComparesCodes(timestamp: nat, nonce: Text, key: Text, verb: Text, path: Text, body: Text,
                             sha: Sha, mac: Mac, numbers: Numbers)
    requires timestamp > 0 && IsNonce(nonce) && Digests(sha, mac) && Decimals(numbers)
    requires |key| % 2 == 0
    ensures Verifies(BrowserHeader(timestamp, nonce, key, verb, path, body, sha, mac), key, verb, path, body, sha, mac, numbers)
            <==> ServerText(body).Some? &&
                 mac(ToBytes(key), StringToSign(Decimal(timestamp), nonce, Upper(verb), StripQuery(path), sha(body))) ==
                 mac(key, StringToSign(Decimal(timestamp), nonce, Upper(verb), StripQuery(path), sha(ServerText(body).value)))
  {
    hide PrintHeader, Verifies, ServerText, IsDigest, ToBytes;
    var s := StringToSign(Decimal(timestamp), nonce, Upper(verb), StripQuery(path), sha(body));
    VerifiesPrinted(timestamp, nonce, mac(ToBytes(key), s), key, verb, path, body, sha, mac, numbers);
  }

  /** Short of a collision between the two codes at hand, the server refuses every request that the
      browser signs, whatever its method, path and body: the browser signs with the bytes that the
      key's hex text stands for, the server verifies with the text. */
  lemma BrowserAlwaysRefused(timestamp: nat, nonce: Text, key: Text, verb: Text, path: Text, body: Text,
                             sha: Sha, mac: Mac, numbers: Numbers)
    requires timestamp > 0 && IsNonce(nonce) && Digests(sha, mac) && Decimals(numbers)
    requires |key| % 2 == 0 && key != []
    requires var read := ServerText(body);
             read.Some? ==>
               var (a, b) := (StringToSign(Decimal(timestamp), nonce, Upper(verb), StripQuery(path), sha(body)),
                              StringToSign(Decimal(timestamp), nonce, Upper(verb), StripQuery(path), sha(read.value)));
               mac(ToBytes(key), a) == mac(key, b) ==> ToBytes(key) == key && a == b
    ensures !Verifies(BrowserHeader(timestamp, nonce, key, verb, path, body, sha, mac), key, verb, path, body, sha, mac, numbers)
  {
    hide PrintHeader, Verifies, ServerText, ToBytes;
    KeysDiffer(key);
    BrowserComparesCodes(timestamp, nonce, key, verb, path, body, sha, mac, numbers);
  }

  /** The keys are all that parts the two sides on a sound body: short of a collision of the two hashes
      at hand, both sign the same string exactly when the server reads the body back as it was sent. */
  lemma BrowserStringsAgreeExactly(timestamp: nat, nonce: Text, verb: Text, path: Text, v: Json, sha: Sha)
    requires Printable(v) && (forall t :: IsDigest(sha(t)))
    requires var read := ServerText(Print(v)); read.Some? && sha(Print(v)) == sha(read.value) ==> Print(v) == read.value
    ensures (var read := ServerText(Print(v));
             read.Some? &&
             StringToSign(Decimal(timestamp), nonce, Upper(verb), StripQuery(path), sha(Print(v))) ==
             StringToSign(Decimal(timestamp), nonce, Upper(verb), StripQuery(path), sha(read.value)))
            <==> Signable(v)
  {
    hide ServerText, IsDigest, Signable;
    ServerAgreesExactly(v);
    var read := ServerText(Print(v));
    if read.Some? {
      DigestHasNoDot(sha(Print(v)));
      DigestHasNoDot(sha(read.value));
      SameButForPathAndHash(Decimal(timestamp), nonce, Upper(verb), StripQuery(path), sha(Print(v)),
                            StripQuery(path), sha(read.value));
    }
  }
}
