/** The hash that pins a session to a worker: a loop of 32-bit shifts, and the base-31
    polynomial it computes. */
module SessionHash {
  import opened Texts

  type SessionId = Text

  const TWO_32: int := 0x1_0000_0000

  /** JavaScript's `x | 0`: reduction to a signed 32-bit integer. */
  function ToInt32(x: int): (r: int)
    ensures -0x8000_0000 <= r < 0x8000_0000
    ensures (x - r) % TWO_32 == 0
  {
    (x + 0x8000_0000) % TWO_32 - 0x8000_0000
  }

  /** The base-31 polynomial of a string, over the unbounded integers. */
  function Poly(s: seq<CodeUnit>): int {
    if s == [] then 0 else 31 * Poly(s[..|s| - 1]) + s[|s| - 1]
  }

  function Abs(x: int): int {
    if x < 0 then -x else x
  }

  function HashOf(s: seq<CodeUnit>): (h: nat)
    ensures h <= 0x8000_0000
  {
    Abs(ToInt32(Poly(s)))
  }

  /** The index of the worker that owns a session, among `n` workers. */
  function Pin(s: SessionId, n: nat): (i: nat)
    requires n > 0
    ensures i < n
  {
    HashOf(s) % n
  }

  lemma ToInt32Shift(x: int, m: int)
    ensures ToInt32(x + TWO_32 * m) == ToInt32(x)
  {
    assert (x + TWO_32 * m + 0x8000_0000) % TWO_32 == (x + 0x8000_0000) % TWO_32;
  }

  /** Two integers have the same 32-bit value exactly when they are congruent. */
  lemma ToInt32Congruent(x: int, y: int)
    ensures ToInt32(x) == ToInt32(y) <==> (x - y) % TWO_32 == 0
  {
    if (x - y) % TWO_32 == 0 {
      var m := (x - y) / TWO_32;
      ToInt32Shift(y, m);
    }
  }

  /** One round of the loop, which wraps twice, wraps the exact polynomial once. */
  lemma RoundIsExact(p: int, c: int)
    ensures ToInt32(ToInt32(ToInt32(p) * 32) - ToInt32(p) + c) == ToInt32(31 * p + c)
  {
    var h := ToInt32(p);
    var k := (p - h) / TWO_32;
    var j := (h * 32 - ToInt32(h * 32)) / TWO_32;
    assert p == h + TWO_32 * k && h * 32 == ToInt32(h * 32) + TWO_32 * j;
    assert 31 * p + c == (ToInt32(h * 32) - h + c) + TWO_32 * (j + 31 * k);
    ToInt32Shift(ToInt32(h * 32) - h + c, j + 31 * k);
  }

  method DeterministicHash(str: seq<CodeUnit>) returns (r: nat)
    ensures r == HashOf(str)
  {
    var hash := 0;
    for i := 0 to |str|
      invariant hash == ToInt32(Poly(str[..i]))
    {
      assert str[..i + 1][..i] == str[..i];
      RoundIsExact(Poly(str[..i]), str[i]);
      hash := ToInt32(hash * 32) - hash + str[i];
      hash := ToInt32(hash);
    }
    assert str[..|str|] == str;
    r := Abs(hash);
  }

  function Pow31(n: nat): int {
    if n == 0 then 1 else 31 * Pow31(n - 1)
  }

  lemma {:induction false} PolyConcat(s: seq<CodeUnit>, t: seq<CodeUnit>)
    ensures Poly(s + t) == Poly(s) * Pow31(|t|) + Poly(t)
  {
    if t == [] {
      assert s + t == s;
    } else {
      var t' := t[..|t| - 1];
      assert (s + t)[..|s + t| - 1] == s + t';
      PolyConcat(s, t');
      var p, w := Poly(s), Pow31(|t'|);
      assert 31 * (p * w) == p * (31 * w);
    }
  }

  lemma ScaleShift(x: int, i: int, w: int)
    ensures (x + TWO_32 * i) * w == x * w + TWO_32 * (i * w)
  {}

  /** The value of a text whose first part has value `a` and whose last `n` units have value `b`. */
  function Joined(a: int, b: int, n: nat): int {
    a * Pow31(n) + b
  }

  /** The hash is compositional before its absolute value is taken. */
  lemma HashConcat(s: seq<CodeUnit>, t: seq<CodeUnit>)
    ensures ToInt32(Poly(s + t)) == ToInt32(Joined(ToInt32(Poly(s)), ToInt32(Poly(t)), |t|))
  {
    PolyConcat(s, t);
    var w, a, b := Pow31(|t|), ToInt32(Poly(s)), ToInt32(Poly(t));
    var i := (Poly(s) - a) / TWO_32;
    var j := (Poly(t) - b) / TWO_32;
    ScaleShift(a, i, w);
    var aw, iw := a * w, i * w;
    assert Poly(s + t) == aw + b + TWO_32 * (iw + j);
    ToInt32Shift(aw + b, iw + j);
  }

  /** The same as a congruence modulo 2^32. */
  lemma HashConcatModulo(s: seq<CodeUnit>, t: seq<CodeUnit>)
    ensures (Poly(s + t) - Joined(ToInt32(Poly(s)), ToInt32(Poly(t)), |t|)) % TWO_32 == 0
  {
    hide ToInt32, Joined, Poly;
    HashConcat(s, t);
    ToInt32Congruent(Poly(s + t), Joined(ToInt32(Poly(s)), ToInt32(Poly(t)), |t|));
  }

  function Multiple(k: int): int {
    TWO_32 * k
  }

  /** The hash, said without wrapping: the distance from the polynomial to the nearest multiple of 2^32. */
  lemma HashIsDistance(s: seq<CodeUnit>)
    ensures exists k :: HashOf(s) == Poly(s) - Multiple(k) || HashOf(s) == Multiple(k) - Poly(s)
    ensures forall k :: HashOf(s) <= Poly(s) - Multiple(k) || HashOf(s) <= Multiple(k) - Poly(s)
  {
    var r := ToInt32(Poly(s));
    var near := (Poly(s) - r) / TWO_32;
    assert Multiple(near) == Poly(s) - r;
    forall k ensures HashOf(s) <= Poly(s) - Multiple(k) || HashOf(s) <= Multiple(k) - Poly(s) {
      Apart(near, k);
    }
  }

  lemma Apart(j: int, k: int)
    ensures j != k ==> Multiple(j) - Multiple(k) >= TWO_32 || Multiple(k) - Multiple(j) >= TWO_32
  {}

  /** No worker of a pool of at most 65536 is left without sessions it could be given. */
  lemma EveryWorkerReachable(i: CodeUnit, n: nat)
    requires i < n
    ensures Pin([i], n) == i
  {
    assert [i][..0] == [];
    assert Poly([i]) == i;
  }
}
