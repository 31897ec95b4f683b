/** The canonical printer: object keys sorted, undefined fields left out. Its text determines the
    value up to the order of keys. */
module CanonicalJson {
  import opened Sequences
  import opened Texts
  import opened Wrappers
  import opened JsonText

  // ----- keys -----

  function Keys(fields: seq<Field>): (r: seq<Text>)
    ensures |r| == |fields| && forall i :: 0 <= i < |fields| ==> r[i] == fields[i].key
  {
    seq(|fields|, i requires 0 <= i < |fields| => fields[i].key)
  }

  function InsertKey(ks: seq<Text>, k: Text): (r: seq<Text>)
    ensures forall x :: x in r <==> x in ks || x == k
  {
    if ks == [] || !Less(ks[0], k) then [k] + ks else [ks[0]] + InsertKey(ks[1..], k)
  }

  /** `sort` on a list of keys. */
  function SortKeys(ks: seq<Text>): (r: seq<Text>)
    ensures forall x :: x in r <==> x in ks
  {
    if ks == [] then [] else InsertKey(SortKeys(ks[1..]), ks[0])
  }

  predicate Sorted(ks: seq<Text>) {
    forall i, j :: 0 <= i < j < |ks| ==> Less(ks[i], ks[j])
  }

  lemma {:induction false} InsertSorted(ks: seq<Text>, k: Text)
    requires Sorted(ks) && k !in ks
    ensures Sorted(InsertKey(ks, k))
  {
    if ks != [] {
      LessTotal(ks[0], k);
      if Less(ks[0], k) {
        InsertSorted(ks[1..], k);
        var rest := InsertKey(ks[1..], k);
        forall j | 0 <= j < |rest| ensures Less(ks[0], rest[j]) {
          assert rest[j] in rest;
        }
      } else {
        forall j | 0 <= j < |ks| ensures Less(k, ks[j]) {
          if j > 0 {
            LessTransitive(k, ks[0], ks[j]);
          }
        }
      }
    }
  }

  lemma {:induction false} SortSorts(ks: seq<Text>)
    requires NoDuplicates(ks)
    ensures Sorted(SortKeys(ks))
  {
    if ks != [] {
      SortSorts(ks[1..]);
      InsertSorted(SortKeys(ks[1..]), ks[0]);
    }
  }

  /** A sorted list is determined by its elements. */
  lemma {:induction false} SortedUnique(a: seq<Text>, b: seq<Text>)
    requires Sorted(a) && Sorted(b) && forall x :: x in a <==> x in b
    ensures a == b
  {
    if a != [] { assert a[0] in b; }
    if b != [] { assert b[0] in a; }
    if a != [] {
      HeadsEqual(a, b);
      forall x ensures x in a[1..] <==> x in b[1..] {
        TailMember(a, x);
        TailMember(b, x);
      }
      SortedUnique(a[1..], b[1..]);
    }
  }

  lemma HeadsEqual(a: seq<Text>, b: seq<Text>)
    requires Sorted(a) && Sorted(b) && a != [] && b != [] && a[0] in b && b[0] in a
    ensures a[0] == b[0]
  {
    LessTotal(a[0], b[0]);
  }

  lemma TailMember(a: seq<Text>, x: Text)
    requires Sorted(a) && a != []
    ensures x in a[1..] <==> x in a && x != a[0]
  {
    LessTotal(a[0], a[0]);
  }

  // ----- objects -----

  /** The position of a key, or the number of fields. */
  function Find(fields: seq<Field>, key: Text): (i: nat)
    ensures i <= |fields| && (i < |fields| ==> fields[i].key == key)
    ensures i == |fields| <==> key !in Keys(fields)
  {
    if fields == [] then 0
    else if fields[0].key == key then 0
    else
      assert Keys(fields) == [fields[0].key] + Keys(fields[1..]);
      1 + Find(fields[1..], key)
  }

  /** `val[key]`. */
  function ValueAt(fields: seq<Field>, key: Text): Json {
    if Find(fields, key) < |fields| then fields[Find(fields, key)].value else Undefined
  }

  /** The keys whose values are not undefined, in the order given. */
  function Defined(fields: seq<Field>, keys: seq<Text>): (r: seq<Text>)
    ensures forall k :: k in r <==> k in keys && ValueAt(fields, k) != Undefined
  {
    if keys == [] then []
    else (if ValueAt(fields, keys[0]) != Undefined then [keys[0]] else []) + Defined(fields, keys[1..])
  }

  lemma {:induction false} DefinedSorted(fields: seq<Field>, keys: seq<Text>)
    requires Sorted(keys)
    ensures Sorted(Defined(fields, keys))
  {
    if keys != [] {
      DefinedSorted(fields, keys[1..]);
      var rest := Defined(fields, keys[1..]);
      forall j | 0 <= j < |rest| ensures Less(keys[0], rest[j]) {
        assert rest[j] in keys[1..];
      }
    }
  }

  /** The keys that are printed, in the order in which they are printed. */
  function PrintedKeys(fields: seq<Field>): (r: seq<Text>)
    ensures forall k :: k in r <==> ValueAt(fields, k) != Undefined
  {
    Defined(fields, SortKeys(Keys(fields)))
  }

  function CanonicalText(v: Json): Text
    decreases v, 2
  {
    match v
    case Arr(items) => [LBRACKET] + CanonicalItems(items) + [RBRACKET]
    case Obj(fields) => [LBRACE] + CanonicalFields(v, PrintedKeys(fields)) + [RBRACE]
    case _ => Print(v)
  }

  function CanonicalItems(items: seq<Json>): Text
    decreases items, 1
  {
    if items == [] then []
    else if |items| == 1 then CanonicalText(items[0])
    else CanonicalText(items[0]) + [COMMA] + CanonicalItems(items[1..])
  }

  function CanonicalField(v: Json, key: Text): Text
    requires v.Obj? && ValueAt(v.fields, key) != Undefined
    decreases v, 0
  {
    Quote(key) + [COLON] + CanonicalText(ValueAt(v.fields, key))
  }

  function CanonicalFields(v: Json, keys: seq<Text>): Text
    requires v.Obj? && forall k :: k in keys ==> ValueAt(v.fields, k) != Undefined
    decreases v, 1, |keys|
  {
    if keys == [] then []
    else if |keys| == 1 then CanonicalField(v, keys[0])
    else CanonicalField(v, keys[0]) + [COMMA] + CanonicalFields(v, keys[1..])
  }

  // ----- the value that the text stands for -----

  function Norm(v: Json): Json
    decreases v, 2
  {
    match v
    case Arr(items) => Arr(seq(|items|, i requires 0 <= i < |items| => Norm(items[i])))
    case Obj(fields) => Obj(NormFields(v, PrintedKeys(fields)))
    case _ => v
  }

  function NormFields(v: Json, keys: seq<Text>): (r: seq<Field>)
    requires v.Obj? && forall k :: k in keys ==> ValueAt(v.fields, k) != Undefined
    ensures |r| == |keys| && forall i :: 0 <= i < |keys| ==> r[i] == Field(keys[i], Norm(ValueAt(v.fields, keys[i])))
    decreases v, 1, |keys|
  {
    if keys == [] then [] else [Field(keys[0], Norm(ValueAt(v.fields, keys[0])))] + NormFields(v, keys[1..])
  }

  /** The canonical printer prints the normal form as it stands. */
  lemma {:induction false} CanonicalPrintsNorm(v: Json)
    ensures CanonicalText(v) == Print(Norm(v))
    decreases v, 2
  {
    match v
    case Arr(items) =>
      CanonicalItemsPrint(items, Norm(v).items);
    case Obj(fields) => CanonicalFieldsPrint(v, PrintedKeys(fields));
    case _ =>
  }

  lemma {:induction false} CanonicalItemsPrint(items: seq<Json>, normal: seq<Json>)
    requires |normal| == |items| && forall i :: 0 <= i < |items| ==> normal[i] == Norm(items[i])
    ensures CanonicalItems(items) == PrintItems(normal)
    decreases items, 1
  {
    if items != [] {
      CanonicalPrintsNorm(items[0]);
      CanonicalItemsPrint(items[1..], normal[1..]);
    }
  }

  lemma {:induction false} CanonicalFieldsPrint(v: Json, keys: seq<Text>)
    requires v.Obj? && forall k :: k in keys ==> ValueAt(v.fields, k) != Undefined
    ensures CanonicalFields(v, keys) == PrintFields(NormFields(v, keys))
    decreases v, 1, |keys|
  {
    if keys != [] {
      CanonicalPrintsNorm(ValueAt(v.fields, keys[0]));
      CanonicalFieldsPrint(v, keys[1..]);
      assert NormFields(v, keys)[1..] == NormFields(v, keys[1..]);
    }
  }

  // ----- what two values with the same text have in common -----

  /** No object has a key twice. */
  predicate Tidy(v: Json) {
    match v
    case Arr(items) => forall i :: 0 <= i < |items| ==> Tidy(items[i])
    case Obj(fields) => NoDuplicates(Keys(fields)) && forall i :: 0 <= i < |fields| ==> Tidy(fields[i].value)
    case _ => true
  }

  /** Undefined only as the value of a field, and every number a number token. */
  predicate Plain(v: Json) {
    match v
    case Undefined => false
    case Num(token) => IsNumber(token)
    case Arr(items) => forall i :: 0 <= i < |items| ==> Plain(items[i])
    case Obj(fields) => forall i :: 0 <= i < |fields| ==> fields[i].value.Undefined? || Plain(fields[i].value)
    case _ => true
  }

  /** The same value but for the order of keys and for fields that are undefined. */
  predicate Same(v: Json, w: Json)
    decreases v
  {
    if v.Arr? && w.Arr? then
      |v.items| == |w.items| && forall i :: 0 <= i < |v.items| ==> Same(v.items[i], w.items[i])
    else if v.Obj? && w.Obj? then
      && (forall i :: 0 <= i < |v.fields| ==> Same(v.fields[i].value, ValueAt(w.fields, v.fields[i].key)))
      && (forall j :: 0 <= j < |w.fields| ==> w.fields[j].value.Undefined? || w.fields[j].key in Keys(v.fields))
    else v == w
  }

  lemma {:induction false} FindIs(fields: seq<Field>, i: nat)
    requires i < |fields| && forall a, b :: 0 <= a < b < |fields| ==> fields[a].key != fields[b].key
    ensures Find(fields, fields[i].key) == i
  {
    hide Keys;
    if i > 0 {
      FindIs(fields[1..], i - 1);
    }
  }

  lemma KeysDiffer(fields: seq<Field>, a: nat, b: nat)
    requires NoDuplicates(Keys(fields)) && a < b < |fields|
    ensures fields[a].key != fields[b].key
  {
    assert Keys(fields)[a] != Keys(fields)[b];
  }

  lemma FindOwn(fields: seq<Field>, i: nat)
    requires NoDuplicates(Keys(fields)) && i < |fields|
    ensures Find(fields, fields[i].key) == i && ValueAt(fields, fields[i].key) == fields[i].value
  {
    hide Find, Keys, NoDuplicates;
    forall a, b | 0 <= a < b < |fields| ensures fields[a].key != fields[b].key {
      KeysDiffer(fields, a, b);
    }
    FindIs(fields, i);
  }

  lemma SameUndefined(v: Json, w: Json)
    requires Same(v, w)
    ensures v.Undefined? <==> w.Undefined?
  {}

  lemma PrintedSorted(fields: seq<Field>)
    requires NoDuplicates(Keys(fields))
    ensures Sorted(PrintedKeys(fields))
  {
    SortSorts(Keys(fields));
    DefinedSorted(fields, SortKeys(Keys(fields)));
  }

  lemma SameKeys(v: Json, w: Json)
    requires v.Obj? && w.Obj? && Tidy(v) && Tidy(w) && Same(v, w)
    ensures PrintedKeys(v.fields) == PrintedKeys(w.fields)
  {
    forall k ensures ValueAt(v.fields, k) != Undefined <==> ValueAt(w.fields, k) != Undefined {
      var i, j := Find(v.fields, k), Find(w.fields, k);
      if i < |v.fields| {
        SameUndefined(v.fields[i].value, ValueAt(w.fields, v.fields[i].key));
      }
    }
    PrintedSorted(v.fields);
    PrintedSorted(w.fields);
    SortedUnique(PrintedKeys(v.fields), PrintedKeys(w.fields));
  }

  /** Two values have the same normal form exactly when they are the same up to the order of keys. */
  lemma {:induction false} NormExactly(v: Json, w: Json)
    requires Tidy(v) && Tidy(w)
    ensures Norm(v) == Norm(w) <==> Same(v, w)
    decreases v
  {
    hide PrintedKeys, Find, Keys;
    if v.Arr? && w.Arr? {
      NormItems(v, w);
    } else if v.Obj? && w.Obj? {
      if Same(v, w) {
        SameKeys(v, w);
        var keys := PrintedKeys(v.fields);
        forall i | 0 <= i < |keys| ensures Norm(ValueAt(v.fields, keys[i])) == Norm(ValueAt(w.fields, keys[i])) {
          var at := Find(v.fields, keys[i]);
          assert keys[i] in keys;
          NormExactly(v.fields[at].value, ValueAt(w.fields, keys[i]));
        }
        assert NormFields(v, keys) == NormFields(w, keys);
      }
      if Norm(v) == Norm(w) {
        NormFieldsEqual(v, w);
        forall i | 0 <= i < |v.fields| ensures Same(v.fields[i].value, ValueAt(w.fields, v.fields[i].key)) {
          FindOwn(v.fields, i);
          NormExactly(v.fields[i].value, ValueAt(w.fields, v.fields[i].key));
        }
        forall j | 0 <= j < |w.fields| && !w.fields[j].value.Undefined? ensures w.fields[j].key in Keys(v.fields) {
          FindOwn(w.fields, j);
          assert ValueAt(v.fields, w.fields[j].key) != Undefined;
        }
      }
    }
  }

  lemma {:induction false} NormItems(v: Json, w: Json)
    requires v.Arr? && w.Arr? && Tidy(v) && Tidy(w)
    ensures Norm(v) == Norm(w) <==> Same(v, w)
    decreases v, 0
  {
    if |v.items| == |w.items| {
      forall i | 0 <= i < |v.items| ensures Norm(v.items[i]) == Norm(w.items[i]) <==> Same(v.items[i], w.items[i]) {
        NormExactly(v.items[i], w.items[i]);
      }
      if forall i :: 0 <= i < |v.items| ==> Norm(v.items[i]) == Norm(w.items[i]) {
        assert Norm(v).items == Norm(w).items;
      } else {
        var i :| 0 <= i < |v.items| && Norm(v.items[i]) != Norm(w.items[i]);
        assert Norm(v).items[i] != Norm(w).items[i];
      }
    } else {
      assert |Norm(v).items| != |Norm(w).items|;
    }
  }

  lemma NormFieldsEqual(v: Json, w: Json)
    requires v.Obj? && w.Obj? && Norm(v) == Norm(w)
    ensures forall k :: Norm(ValueAt(v.fields, k)) == Norm(ValueAt(w.fields, k))
    ensures forall k :: ValueAt(v.fields, k) == Undefined <==> ValueAt(w.fields, k) == Undefined
  {
    hide Find, PrintedKeys, ValueAt;
    var ks, ls := PrintedKeys(v.fields), PrintedKeys(w.fields);
    var fs, gs := NormFields(v, ks), NormFields(w, ls);
    assert fs == gs;
    hide Norm;
    SameFieldKeys(fs, gs, ks, ls);
    forall k
      ensures Norm(ValueAt(v.fields, k)) == Norm(ValueAt(w.fields, k))
      ensures ValueAt(v.fields, k) == Undefined <==> ValueAt(w.fields, k) == Undefined
    {
      assert k in ks <==> k in ls;
      if k in ks {
        var i :| 0 <= i < |ks| && ks[i] == k;
        assert fs[i].value == gs[i].value;
      }
    }
  }

  lemma SameFieldKeys(fs: seq<Field>, gs: seq<Field>, ks: seq<Text>, ls: seq<Text>)
    requires fs == gs && |fs| == |ks| && |gs| == |ls|
    requires forall i :: 0 <= i < |ks| ==> fs[i].key == ks[i]
    requires forall i :: 0 <= i < |ls| ==> gs[i].key == ls[i]
    ensures ks == ls
  {
    forall i | 0 <= i < |ks| ensures ks[i] == ls[i] {
      assert fs[i] == gs[i];
    }
  }

  lemma {:induction false} NormPrintable(v: Json)
    requires Plain(v)
    ensures Printable(Norm(v))
    decreases v
  {
    match v
    case Arr(items) =>
      forall i | 0 <= i < |items| ensures Printable(Norm(items[i])) {
        NormPrintable(items[i]);
      }
    case Obj(fields) =>
      var keys := PrintedKeys(fields);
      forall i | 0 <= i < |keys| ensures Printable(Norm(ValueAt(fields, keys[i]))) {
        assert keys[i] in keys;
        NormPrintable(fields[Find(fields, keys[i])].value);
      }
    case _ =>
  }

  /** The canonical text ignores the order of keys and nothing else. */
  lemma CanonicalExactly(v: Json, w: Json)
    requires Plain(v) && Plain(w) && Tidy(v) && Tidy(w)
    ensures CanonicalText(v) == CanonicalText(w) <==> Same(v, w)
  {
    CanonicalPrintsNorm(v);
    CanonicalPrintsNorm(w);
    NormPrintable(v);
    NormPrintable(w);
    PrintInjective(Norm(v), Norm(w));
    NormExactly(v, w);
  }

  /** An undefined item of an array is not seen in the text. */
  lemma HoleIsInvisible()
    ensures CanonicalText(Arr([Undefined])) == CanonicalText(Arr([])) && !Same(Arr([Undefined]), Arr([]))
  {}
}
