/** The structural sanitiser on values: what it removes, and that it removes nothing else. */
module Sanitizer {
  import opened Texts
  import opened JsonText

  const PROTO: Text := [0x5F, 0x5F, 0x70, 0x72, 0x6F, 0x74, 0x6F, 0x5F, 0x5F]
  const CONSTRUCTOR: Text := [0x63, 0x6F, 0x6E, 0x73, 0x74, 0x72, 0x75, 0x63, 0x74, 0x6F, 0x72]
  const PROTOTYPE: Text := [0x70, 0x72, 0x6F, 0x74, 0x6F, 0x74, 0x79, 0x70, 0x65]

  /** The keys that are deleted wherever they stand: `__proto__`, `constructor` and `prototype`. */
  predicate Forbidden(key: Text) {
    key == PROTO || key == CONSTRUCTOR || key == PROTOTYPE
  }

  /** Control characters other than tab, line feed and carriage return. */
  predicate IsControl(c: CodeUnit) {
    c <= 8 || c == 0x0B || c == 0x0C || 0x0E <= c <= 0x1F
  }

  /** Of the units below the space, tab, line feed and carriage return alone are no hazard. */
  lemma ControlsExactly(c: CodeUnit)
    ensures IsControl(c) <==> c < 0x20 && c !in {0x09, 0x0A, 0x0D}
  {}

  function StripNul(s: Text): (r: Text)
    ensures 0 !in r && (r == s <==> 0 !in s) && |r| <= |s|
    ensures forall c :: c in r ==> c in s
  {
    if s == [] then []
    else if s[0] == 0 then StripNul(s[1..])
    else assert s == [s[0]] + s[1..]; [s[0]] + StripNul(s[1..])
  }

  function StripControls(s: Text): (r: Text)
    ensures (forall c :: c in r ==> c in s && !IsControl(c)) && |r| <= |s|
    ensures r == s <==> forall c :: c in s ==> !IsControl(c)
  {
    if s == [] then []
    else if IsControl(s[0]) then StripControls(s[1..])
    else assert s == [s[0]] + s[1..]; [s[0]] + StripControls(s[1..])
  }

  /** What is removed is removed unit by unit: a text is cleaned part by part. */
  lemma {:induction false} NulParts(s: Text, t: Text)
    ensures StripNul(s + t) == StripNul(s) + StripNul(t)
  {
    if s == [] {
      assert s + t == t;
    } else {
      assert (s + t)[0] == s[0] && (s + t)[1..] == s[1..] + t;
      NulParts(s[1..], t);
    }
  }

  lemma {:induction false} ControlParts(s: Text, t: Text)
    ensures StripControls(s + t) == StripControls(s) + StripControls(t)
  {
    if s == [] {
      assert s + t == t;
    } else {
      assert (s + t)[0] == s[0] && (s + t)[1..] == s[1..] + t;
      ControlParts(s[1..], t);
    }
  }

  function CleanText(s: Text, strict: bool): Text {
    if strict then StripControls(StripNul(s)) else StripNul(s)
  }

  predicate CleanUnits(s: Text, strict: bool) {
    0 !in s && (strict ==> forall c :: c in s ==> !IsControl(c))
  }

  lemma CleanTextExactly(s: Text, strict: bool)
    ensures CleanUnits(CleanText(s, strict), strict)
    ensures CleanText(s, strict) == s <==> CleanUnits(s, strict)
  {
    if strict && StripControls(StripNul(s)) == s {
      assert |StripNul(s)| == |s|;
      NulLength(s);
    }
  }

  lemma {:induction false} NulLength(s: Text)
    ensures |StripNul(s)| == |s| <==> 0 !in s
  {
    if s != [] {
      NulLength(s[1..]);
      assert s == [s[0]] + s[1..];
    }
  }

  /** A unit that stays in a clean string value. */
  predicate Stays(c: CodeUnit, strict: bool) {
    c != 0 && !(strict && IsControl(c))
  }

  /** A text's units that stay, in order. */
  lemma {:induction false} CleanTextKeeps(s: Text, strict: bool)
    ensures CleanText([], strict) == []
    ensures s != [] ==> CleanText(s, strict) ==
                        CleanText(s[..|s| - 1], strict) + if Stays(s[|s| - 1], strict) then [s[|s| - 1]] else []
  {
    if s != [] {
      var front, last := s[..|s| - 1], s[|s| - 1];
      assert s == front + [last];
      NulParts(front, [last]);
      ControlParts(StripNul(front), StripNul([last]));
    }
  }

  function Clean(v: Json, strict: bool): Json
    decreases v
  {
    match v
    case Str(s) => Str(CleanText(s, strict))
    case Arr(items) => Arr(CleanItems(items, strict))
    case Obj(fields) => Obj(CleanFields(fields, strict))
    case _ => v
  }

  function CleanItems(items: seq<Json>, strict: bool): (r: seq<Json>)
    ensures |r| == |items| && forall i :: 0 <= i < |items| ==> r[i] == Clean(items[i], strict)
    decreases items
  {
    if items == [] then [] else [Clean(items[0], strict)] + CleanItems(items[1..], strict)
  }

  function CleanFields(fields: seq<Field>, strict: bool): (r: seq<Field>)
    ensures |r| <= |fields|
    decreases fields
  {
    if fields == [] then []
    else if Forbidden(fields[0].key) then CleanFields(fields[1..], strict)
    else [Field(fields[0].key, Clean(fields[0].value, strict))] + CleanFields(fields[1..], strict)
  }

  /** An object's fields are cleaned one at a time and in order: a forbidden one goes, any other stays
      under its key. */
  lemma {:induction false} CleanFieldsKeeps(fields: seq<Field>, more: seq<Field>, strict: bool)
    ensures CleanFields(fields + more, strict) == CleanFields(fields, strict) + CleanFields(more, strict)
    ensures |more| == 1 ==> CleanFields(more, strict) ==
                            if Forbidden(more[0].key) then [] else [Field(more[0].key, Clean(more[0].value, strict))]
  {
    if fields == [] {
      assert fields + more == more;
    } else {
      assert (fields + more)[0] == fields[0] && (fields + more)[1..] == fields[1..] + more;
      CleanFieldsKeeps(fields[1..], more, strict);
    }
  }

  /** No forbidden key and no forbidden character in a string value, at any depth. */
  predicate HazardFree(v: Json, strict: bool) {
    match v
    case Str(s) => CleanUnits(s, strict)
    case Arr(items) => forall i :: 0 <= i < |items| ==> HazardFree(items[i], strict)
    case Obj(fields) => forall i :: 0 <= i < |fields| ==> !Forbidden(fields[i].key) && HazardFree(fields[i].value, strict)
    case _ => true
  }

  predicate FieldsHazardFree(fields: seq<Field>, strict: bool) {
    forall i :: 0 <= i < |fields| ==> !Forbidden(fields[i].key) && HazardFree(fields[i].value, strict)
  }

  /** The sanitiser's result has no hazard left, and it changes a value exactly if there was one. */
  lemma {:induction false} CleanExactly(v: Json, strict: bool)
    ensures HazardFree(Clean(v, strict), strict)
    ensures Clean(v, strict) == v <==> HazardFree(v, strict)
    decreases v
  {
    match v
    case Str(s) => CleanTextExactly(s, strict);
    case Arr(items) =>
      forall i | 0 <= i < |items|
        ensures HazardFree(CleanItems(items, strict)[i], strict)
        ensures CleanItems(items, strict)[i] == items[i] <==> HazardFree(items[i], strict)
      {
        CleanExactly(items[i], strict);
      }
      if CleanItems(items, strict) == items {
        assert HazardFree(v, strict);
      }
    case Obj(fields) => CleanFieldsExactly(fields, strict);
    case _ =>
  }

  lemma {:induction false} CleanFieldsExactly(fields: seq<Field>, strict: bool)
    ensures FieldsHazardFree(CleanFields(fields, strict), strict)
    ensures CleanFields(fields, strict) == fields <==> FieldsHazardFree(fields, strict)
    decreases fields
  {
    if fields != [] {
      CleanFieldsExactly(fields[1..], strict);
      CleanExactly(fields[0].value, strict);
      var rest := CleanFields(fields[1..], strict);
      if !Forbidden(fields[0].key) {
        var f := Field(fields[0].key, Clean(fields[0].value, strict));
        assert ([f] + rest)[1..] == rest;
        assert fields == [fields[0]] + fields[1..];
        assert FieldsHazardFree(fields, strict) ==> FieldsHazardFree(fields[1..], strict);
      }
    }
  }

  lemma CleanIdempotent(v: Json, strict: bool)
    ensures Clean(Clean(v, strict), strict) == Clean(v, strict)
  {
    CleanExactly(v, strict);
    CleanExactly(Clean(v, strict), strict);
  }

  lemma {:induction false} CleanPrintable(v: Json, strict: bool)
    requires Printable(v)
    ensures Printable(Clean(v, strict))
    decreases v
  {
    match v
    case Arr(items) =>
      forall i | 0 <= i < |items| ensures Printable(CleanItems(items, strict)[i]) {
        CleanPrintable(items[i], strict);
      }
    case Obj(fields) => CleanFieldsPrintable(fields, strict);
    case _ =>
  }

  lemma {:induction false} CleanFieldsPrintable(fields: seq<Field>, strict: bool)
    requires forall i :: 0 <= i < |fields| ==> Printable(fields[i].value)
    ensures forall i :: 0 <= i < |CleanFields(fields, strict)| ==> Printable(CleanFields(fields, strict)[i].value)
    decreases fields
  {
    if fields != [] {
      CleanFieldsPrintable(fields[1..], strict);
      CleanPrintable(fields[0].value, strict);
    }
  }
}
