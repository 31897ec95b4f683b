/** What the server hashes for a body text: the text parsed, made into objects, sanitised and printed
    again. */
module SignedBody {
  import opened Texts
  import opened Wrappers
  import opened JsonText
  import opened CanonicalJson
  import opened Sanitizer

  // ----- the order of an object's own keys -----

  function DigitsValue(k: Text): int {
    if k == [] then 0 else 10 * DigitsValue(k[..|k| - 1]) + k[|k| - 1] - 0x30
  }

  /** An array index: a decimal without leading zeros, at most 2^32 - 2. */
  predicate IsIndex(k: Text) {
    && k != []
    && (forall i :: 0 <= i < |k| ==> 0x30 <= k[i] <= 0x39)
    && (k[0] == 0x30 ==> |k| == 1)
    && DigitsValue(k) <= 0xFFFF_FFFE
  }

  /** Whether `a` stands before `b` in an object that got `a` first: array indices come first, in
      ascending order, then the other keys as they came. */
  predicate OwnBefore(a: Text, b: Text) {
    if IsIndex(a) then !IsIndex(b) || DigitsValue(a) < DigitsValue(b) else !IsIndex(b)
  }

  predicate OwnOrdered(fields: seq<Field>) {
    forall i, j :: 0 <= i < j < |fields| ==> fields[i].key != fields[j].key && OwnBefore(fields[i].key, fields[j].key)
  }

  /** An object gets a property, or a new value for one that it has. */
  function Assign(fields: seq<Field>, f: Field): seq<Field> {
    if f.key in Keys(fields) then fields[Find(fields, f.key) := f] else Place(fields, f)
  }

  function Place(fields: seq<Field>, f: Field): (r: seq<Field>)
    ensures |r| == |fields| + 1
    ensures forall x :: x in r <==> x in fields || x == f
  {
    if fields == [] then [f]
    else if IsIndex(f.key) && !OwnBefore(fields[0].key, f.key) then [f] + fields
    else [fields[0]] + Place(fields[1..], f)
  }

  /** The objects of a parsed text: later duplicates of a key win, and keys take their own order. */
  function Materialize(v: Json): Json
    decreases v
  {
    match v
    case Arr(items) => Arr(MaterializeItems(items))
    case Obj(fields) => Obj(Build(MaterializeFields(fields)))
    case _ => v
  }

  function MaterializeItems(items: seq<Json>): (r: seq<Json>)
    ensures |r| == |items| && forall i :: 0 <= i < |items| ==> r[i] == Materialize(items[i])
    decreases items
  {
    if items == [] then [] else [Materialize(items[0])] + MaterializeItems(items[1..])
  }

  function MaterializeFields(fields: seq<Field>): (r: seq<Field>)
    ensures |r| == |fields| && forall i :: 0 <= i < |fields| ==> r[i] == Field(fields[i].key, Materialize(fields[i].value))
    decreases fields
  {
    if fields == [] then [] else [Field(fields[0].key, Materialize(fields[0].value))] + MaterializeFields(fields[1..])
  }

  function Build(fields: seq<Field>): seq<Field> {
    if fields == [] then [] else Assign(Build(fields[..|fields| - 1]), fields[|fields| - 1])
  }

  /** What an object has under a key. */
  function LookUp(fields: seq<Field>, key: Text): Option<Json> {
    if fields == [] then None else if fields[0].key == key then Some(fields[0].value) else LookUp(fields[1..], key)
  }

  /** What a text says last under a key. */
  function SaidLast(fields: seq<Field>, key: Text): Option<Json> {
    if fields == [] then None
    else if fields[|fields| - 1].key == key then Some(fields[|fields| - 1].value)
    else SaidLast(fields[..|fields| - 1], key)
  }

  lemma {:induction false} PlaceLooks(fields: seq<Field>, f: Field, key: Text)
    requires LookUp(fields, f.key) == None
    ensures LookUp(Place(fields, f), key) == if key == f.key then Some(f.value) else LookUp(fields, key)
  {
    hide IsIndex, OwnBefore;
    assert ([f] + fields)[1..] == fields;
    if fields != [] {
      PlaceLooks(fields[1..], f, key);
      assert ([fields[0]] + Place(fields[1..], f))[1..] == Place(fields[1..], f);
    }
  }

  lemma {:induction false} UpdateLooks(fields: seq<Field>, f: Field, key: Text)
    requires Find(fields, f.key) < |fields|
    ensures LookUp(fields[Find(fields, f.key) := f], key) == if key == f.key then Some(f.value) else LookUp(fields, key)
  {
    hide Keys;
    var all := fields[Find(fields, f.key) := f];
    if fields[0].key == f.key {
      assert all[1..] == fields[1..];
    } else {
      UpdateLooks(fields[1..], f, key);
      assert all[1..] == fields[1..][Find(fields[1..], f.key) := f];
    }
  }

  lemma {:induction false} AbsentKey(fields: seq<Field>, key: Text)
    requires Find(fields, key) == |fields|
    ensures LookUp(fields, key) == None
  {
    hide Keys;
    if fields != [] {
      AbsentKey(fields[1..], key);
    }
  }

  /** An object made from a text has under each key what the text says last, and no other key. */
  lemma {:induction false} LastOneWins(fields: seq<Field>, key: Text)
    ensures LookUp(Build(fields), key) == SaidLast(fields, key)
  {
    if fields != [] {
      var before, f := Build(fields[..|fields| - 1]), fields[|fields| - 1];
      LastOneWins(fields[..|fields| - 1], key);
      if f.key in Keys(before) {
        UpdateLooks(before, f, key);
      } else {
        AbsentKey(before, f.key);
        PlaceLooks(before, f, key);
      }
    }
  }

  /** Every object has its keys in their own order. */
  predicate Ordered(v: Json) {
    match v
    case Arr(items) => forall i :: 0 <= i < |items| ==> Ordered(items[i])
    case Obj(fields) => OwnOrdered(fields) && forall i :: 0 <= i < |fields| ==> Ordered(fields[i].value)
    case _ => true
  }

  lemma {:induction false} DigitsDetermine(a: Text, b: Text)
    requires |a| == |b|
    requires forall i :: 0 <= i < |a| ==> 0x30 <= a[i] <= 0x39 && 0x30 <= b[i] <= 0x39
    requires DigitsValue(a) == DigitsValue(b)
    ensures a == b
  {
    if a != [] {
      DigitsDetermine(a[..|a| - 1], b[..|b| - 1]);
      assert a == a[..|a| - 1] + [a[|a| - 1]] && b == b[..|b| - 1] + [b[|b| - 1]];
    }
  }

  function Pow10(n: nat): nat {
    if n == 0 then 1 else 10 * Pow10(n - 1)
  }

  lemma {:induction false} DigitsBounds(k: Text)
    requires k != [] && forall i :: 0 <= i < |k| ==> 0x30 <= k[i] <= 0x39
    ensures 0 <= DigitsValue(k) < Pow10(|k|)
    ensures k[0] != 0x30 ==> DigitsValue(k) >= Pow10(|k| - 1)
  {
    if |k| > 1 {
      DigitsBounds(k[..|k| - 1]);
    } else {
      assert k[..0] == [];
    }
  }

  lemma {:induction false} Pow10Grows(m: nat, n: nat)
    requires m <= n
    ensures Pow10(m) <= Pow10(n)
  {
    if m < n {
      Pow10Grows(m, n - 1);
    }
  }

  lemma ShorterIsSmaller(a: Text, b: Text)
    requires IsIndex(a) && IsIndex(b) && |a| < |b|
    ensures DigitsValue(a) < DigitsValue(b)
  {
    DigitsBounds(a);
    DigitsBounds(b);
    Pow10Grows(|a|, |b| - 1);
  }

  /** Different array indices are different numbers. */
  lemma IndexDetermines(a: Text, b: Text)
    requires IsIndex(a) && IsIndex(b) && DigitsValue(a) == DigitsValue(b)
    ensures a == b
  {
    if |a| < |b| {
      ShorterIsSmaller(a, b);
    } else if |b| < |a| {
      ShorterIsSmaller(b, a);
    } else {
      DigitsDetermine(a, b);
    }
  }

  lemma {:induction false} PlaceOrdered(fields: seq<Field>, f: Field)
    requires OwnOrdered(fields) && f.key !in Keys(fields)
    ensures OwnOrdered(Place(fields, f))
  {
    forall i | 0 <= i < |fields|
      ensures fields[i].key != f.key && (OwnBefore(fields[i].key, f.key) || OwnBefore(f.key, fields[i].key))
    {
      assert Keys(fields)[i] in Keys(fields);
      if IsIndex(f.key) && IsIndex(fields[i].key) && DigitsValue(f.key) == DigitsValue(fields[i].key) {
        IndexDetermines(f.key, fields[i].key);
      }
    }
    if fields != [] && !(IsIndex(f.key) && !OwnBefore(fields[0].key, f.key)) {
      assert f.key !in Keys(fields[1..]) by {
        assert Keys(fields)[1..] == Keys(fields[1..]);
      }
      PlaceOrdered(fields[1..], f);
      var rest := Place(fields[1..], f);
      forall j | 0 <= j < |rest| ensures fields[0].key != rest[j].key && OwnBefore(fields[0].key, rest[j].key) {
        assert rest[j] in fields[1..] || rest[j] == f;
      }
    }
  }

  lemma AssignOrdered(fields: seq<Field>, f: Field)
    requires OwnOrdered(fields)
    ensures OwnOrdered(Assign(fields, f))
  {
    if f.key !in Keys(fields) {
      PlaceOrdered(fields, f);
    }
  }

  lemma {:induction false} BuildOrdered(fields: seq<Field>)
    ensures OwnOrdered(Build(fields))
    ensures forall x :: x in Build(fields) ==> x in fields
  {
    if fields != [] {
      var front, last := fields[..|fields| - 1], fields[|fields| - 1];
      BuildOrdered(front);
      AssignOrdered(Build(front), last);
      forall x | x in Build(fields) ensures x in fields {
        assert x in Build(front) || x == last;
      }
    }
  }

  lemma {:induction false} PlaceLast(fields: seq<Field>, f: Field)
    requires forall i :: 0 <= i < |fields| ==> OwnBefore(fields[i].key, f.key)
    ensures Place(fields, f) == fields + [f]
  {
    if fields != [] {
      PlaceLast(fields[1..], f);
      assert fields == [fields[0]] + fields[1..];
    }
  }

  lemma {:induction false} BuildKeepsOrdered(fields: seq<Field>)
    requires OwnOrdered(fields)
    ensures Build(fields) == fields
  {
    hide OwnBefore, Find, Place;
    if fields != [] {
      var front, last := fields[..|fields| - 1], fields[|fields| - 1];
      BuildKeepsOrdered(front);
      PlaceLast(front, last);
      assert last.key !in Keys(front);
      assert fields == front + [last];
    }
  }

  lemma {:induction false} MaterializeOrdered(v: Json)
    ensures Ordered(Materialize(v))
    decreases v
  {
    match v
    case Arr(items) =>
      forall i | 0 <= i < |items| ensures Ordered(MaterializeItems(items)[i]) {
        MaterializeOrdered(items[i]);
      }
    case Obj(fields) =>
      var made := MaterializeFields(fields);
      BuildOrdered(made);
      forall i | 0 <= i < |Build(made)| ensures Ordered(Build(made)[i].value) {
        assert Build(made)[i] in made;
        var j :| 0 <= j < |made| && made[j] == Build(made)[i];
        MaterializeOrdered(fields[j].value);
      }
    case _ =>
  }

  lemma {:induction false} MaterializeKeepsOrdered(v: Json)
    requires Ordered(v)
    ensures Materialize(v) == v
    decreases v
  {
    match v
    case Arr(items) =>
      forall i | 0 <= i < |items| ensures MaterializeItems(items)[i] == items[i] {
        MaterializeKeepsOrdered(items[i]);
      }
    case Obj(fields) =>
      forall i | 0 <= i < |fields| ensures MaterializeFields(fields)[i] == fields[i] {
        MaterializeKeepsOrdered(fields[i].value);
      }
      assert MaterializeFields(fields) == fields;
      BuildKeepsOrdered(fields);
    case _ =>
  }

  lemma {:induction false} MaterializePrintable(v: Json)
    requires Printable(v)
    ensures Printable(Materialize(v))
    decreases v
  {
    match v
    case Arr(items) =>
      forall i | 0 <= i < |items| ensures Printable(MaterializeItems(items)[i]) {
        MaterializePrintable(items[i]);
      }
    case Obj(fields) =>
      var made := MaterializeFields(fields);
      BuildOrdered(made);
      forall i | 0 <= i < |Build(made)| ensures Printable(Build(made)[i].value) {
        assert Build(made)[i] in made;
        var j :| 0 <= j < |made| && made[j] == Build(made)[i];
        MaterializePrintable(fields[j].value);
      }
    case _ =>
  }

  /** The cleaned fields stand in the order of the fields they come from. */
  lemma {:induction false} CleanFieldsOrdered(fields: seq<Field>, strict: bool)
    requires OwnOrdered(fields)
    requires forall i :: 0 <= i < |fields| ==> Ordered(fields[i].value)
    ensures OwnOrdered(CleanFields(fields, strict))
    ensures forall i :: 0 <= i < |CleanFields(fields, strict)| ==> Ordered(CleanFields(fields, strict)[i].value)
    ensures forall x :: x in CleanFields(fields, strict) ==> x.key in Keys(fields)
    decreases fields
  {
    hide OwnBefore, Forbidden, Clean, Find;
    if fields != [] {
      CleanFieldsOrdered(fields[1..], strict);
      CleanOrdered(fields[0].value, strict);
      assert Keys(fields) == [fields[0].key] + Keys(fields[1..]);
      HeadBefore(fields, CleanFields(fields[1..], strict));
    }
  }

  lemma HeadBefore(fields: seq<Field>, rest: seq<Field>)
    requires OwnOrdered(fields) && fields != [] && forall x :: x in rest ==> x.key in Keys(fields[1..])
    ensures forall j :: 0 <= j < |rest| ==> fields[0].key != rest[j].key && OwnBefore(fields[0].key, rest[j].key)
  {
    hide OwnBefore;
    forall j | 0 <= j < |rest| ensures fields[0].key != rest[j].key && OwnBefore(fields[0].key, rest[j].key) {
      assert rest[j] in rest;
      var k :| 0 <= k < |fields[1..]| && Keys(fields[1..])[k] == rest[j].key;
      assert fields[k + 1].key == rest[j].key;
    }
  }

  lemma {:induction false} CleanOrdered(v: Json, strict: bool)
    requires Ordered(v)
    ensures Ordered(Clean(v, strict))
    decreases v
  {
    match v
    case Arr(items) =>
      forall i | 0 <= i < |items| ensures Ordered(CleanItems(items, strict)[i]) {
        CleanOrdered(items[i], strict);
      }
    case Obj(fields) => CleanFieldsOrdered(fields, strict);
    case _ =>
  }

  /** Reading a value back changes it exactly if an object's keys are out of their own order or the
      sanitiser finds a hazard. */
  lemma ReadBackExactly(v: Json, strict: bool)
    ensures Clean(Materialize(v), strict) == v <==> Ordered(v) && HazardFree(v, strict)
  {
    MaterializeOrdered(v);
    CleanOrdered(Materialize(v), strict);
    CleanExactly(Materialize(v), strict);
    if Ordered(v) && HazardFree(v, strict) {
      MaterializeKeepsOrdered(v);
    }
  }

  // ----- the text that is hashed -----

  /** `canonicalizeBody`, of both sides. */
  function CanonicalBody(v: Json): Text {
    match v
    case Undefined => []
    case Null => []
    case Str(s) => s
    case Obj(fields) => if fields == [] then [] else Print(v)
    case _ => Print(v)
  }

  /** What the server hashes for the text of a request body. The body parser takes only objects and
      arrays; a request without a body has none. */
  function ServerText(t: Text): Option<Text> {
    if t == [] then Some([]) else
    var v := Parse(t);
    if v.None? || !(v.value.Obj? || v.value.Arr?) then None
    else Some(CanonicalBody(Clean(Materialize(v.value), false)))
  }

  /** What a body must be for the server to hash the text that was sent. */
  predicate Signable(v: Json) {
    (v.Arr? || (v.Obj? && v.fields != [])) && Ordered(v) && HazardFree(v, false)
  }

  /** The server hashes the very text that the client printed exactly when the printed value is an
      array or an object with a field, its objects' keys are in their own order, and it is free of
      hazards. */
  lemma ServerAgreesExactly(v: Json)
    requires Printable(v)
    ensures ServerText(Print(v)) == Some(Print(v)) <==> Signable(v)
  {
    RoundTrip(v);
    PrintStart(v);
    if v.Arr? || v.Obj? {
      var read := Clean(Materialize(v), false);
      MaterializePrintable(v);
      CleanPrintable(Materialize(v), false);
      PrintInjective(read, v);
      ReadBackExactly(v, false);
    }
  }

  /** The same for the text of the canonical printer. */
  lemma CanonicalAgreesExactly(v: Json)
    requires Plain(v)
    ensures ServerText(CanonicalText(v)) == Some(CanonicalText(v)) <==> Signable(Norm(v))
  {
    CanonicalPrintsNorm(v);
    NormPrintable(v);
    ServerAgreesExactly(Norm(v));
  }

  // ----- in terms of the body itself -----

  /** No key at any depth is an array index. */
  predicate NoIndexKeys(v: Json) {
    match v
    case Arr(items) => forall i :: 0 <= i < |items| ==> NoIndexKeys(items[i])
    case Obj(fields) => forall i :: 0 <= i < |fields| ==> !IsIndex(fields[i].key) && NoIndexKeys(fields[i].value)
    case _ => true
  }

  lemma {:induction false} NormKeepsHazardFree(v: Json)
    requires HazardFree(v, false)
    ensures HazardFree(Norm(v), false)
    decreases v
  {
    match v
    case Arr(items) =>
      forall i | 0 <= i < |items| ensures HazardFree(Norm(items[i]), false) {
        NormKeepsHazardFree(items[i]);
      }
    case Obj(fields) =>
      var keys := PrintedKeys(fields);
      forall i | 0 <= i < |keys| ensures !Forbidden(keys[i]) && HazardFree(Norm(ValueAt(fields, keys[i])), false) {
        assert keys[i] in keys;
        NormKeepsHazardFree(fields[Find(fields, keys[i])].value);
      }
    case _ =>
  }

  lemma {:induction false} NormOrdered(v: Json)
    requires Tidy(v) && NoIndexKeys(v)
    ensures Ordered(Norm(v))
    decreases v
  {
    match v
    case Arr(items) =>
      forall i | 0 <= i < |items| ensures Ordered(Norm(items[i])) {
        NormOrdered(items[i]);
      }
    case Obj(fields) =>
      var keys := PrintedKeys(fields);
      PrintedSorted(fields);
      forall i | 0 <= i < |keys| ensures !IsIndex(keys[i]) && Ordered(Norm(ValueAt(fields, keys[i]))) {
        assert keys[i] in keys;
        NormOrdered(fields[Find(fields, keys[i])].value);
      }
      forall i, j | 0 <= i < j < |keys| ensures keys[i] != keys[j] {
        LessTotal(keys[i], keys[j]);
      }
    case _ =>
  }

  /** A body with a field, without array-index keys and without hazards is hashed as it was sent. */
  lemma PlainBodiesAgree(v: Json)
    requires Plain(v) && Tidy(v) && NoIndexKeys(v) && HazardFree(v, false)
    requires v.Arr? || (v.Obj? && PrintedKeys(v.fields) != [])
    ensures ServerText(CanonicalText(v)) == Some(CanonicalText(v))
  {
    NormKeepsHazardFree(v);
    NormOrdered(v);
    CanonicalAgreesExactly(v);
  }

  /** Two array-index keys of which the larger number is the smaller text, as 10 and 9, are enough to
      part the two texts. */
  lemma IndexKeysPart(v: Json, a: Text, b: Text)
    requires v.Obj? && Plain(v) && Tidy(v)
    requires ValueAt(v.fields, a) != Undefined && ValueAt(v.fields, b) != Undefined
    requires IsIndex(a) && IsIndex(b) && Less(a, b) && DigitsValue(a) > DigitsValue(b)
    ensures ServerText(CanonicalText(v)) != Some(CanonicalText(v))
  {
    hide Less, DigitsValue, IsIndex, Signable, ServerText, CanonicalText;
    NormOutOfOrder(v, a, b);
    CanonicalAgreesExactly(v);
  }

  lemma NormOutOfOrder(v: Json, a: Text, b: Text)
    requires v.Obj? && Tidy(v)
    requires ValueAt(v.fields, a) != Undefined && ValueAt(v.fields, b) != Undefined
    requires IsIndex(a) && IsIndex(b) && Less(a, b) && DigitsValue(a) > DigitsValue(b)
    ensures !Signable(Norm(v))
  {
    hide Less, DigitsValue, IsIndex, OwnOrdered, HazardFree, Find;
    var keys := PrintedKeys(v.fields);
    PrintedSorted(v.fields);
    OutOfOrder(NormFields(v, keys), keys, a, b);
  }

  lemma OutOfOrder(fields: seq<Field>, keys: seq<Text>, a: Text, b: Text)
    requires |fields| == |keys| && forall i :: 0 <= i < |keys| ==> fields[i].key == keys[i]
    requires Sorted(keys) && a in keys && b in keys
    requires IsIndex(a) && IsIndex(b) && Less(a, b) && DigitsValue(a) > DigitsValue(b)
    ensures !OwnOrdered(fields)
  {
    hide DigitsValue, IsIndex;
    var i :| 0 <= i < |keys| && keys[i] == a;
    var j :| 0 <= j < |keys| && keys[j] == b;
    LessTotal(a, b);
    assert fields[i].key == a && fields[j].key == b;
  }
}
