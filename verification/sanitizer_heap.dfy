/** The sanitiser as it runs: a recursive procedure that overwrites the objects and arrays of a tree in
    place. Objects live in a store and are known by their references. */
module SanitizerHeap {
  import opened Texts
  import opened JsonText
  import opened Sanitizer

  type Ref = nat

  /** A value in an array or an object: a primitive, or a reference. */
  datatype Slot = Leaf(v: Json) | At(ref: Ref)

  datatype Property = Property(key: Text, slot: Slot)

  datatype Node = ArrayNode(items: seq<Slot>) | ObjectNode(properties: seq<Property>)

  type Store = map<Ref, Node>

  /** A value together with the references of its objects and arrays. */
  datatype Shape = LeafShape(v: Json) | ArrShape(ref: Ref, items: seq<Shape>) | ObjShape(ref: Ref, fields: seq<FieldShape>)

  datatype FieldShape = FieldShape(key: Text, shape: Shape)

  function Value(s: Shape): Json
    decreases s
  {
    match s
    case LeafShape(v) => v
    case ArrShape(_, items) => Arr(ItemValues(items))
    case ObjShape(_, fields) => Obj(FieldValues(fields))
  }

  function ItemValues(items: seq<Shape>): seq<Json>
    decreases items
  {
    if items == [] then [] else [Value(items[0])] + ItemValues(items[1..])
  }

  function FieldValues(fields: seq<FieldShape>): seq<Field>
    decreases fields
  {
    if fields == [] then [] else [Field(fields[0].key, Value(fields[0].shape))] + FieldValues(fields[1..])
  }

  function Refs(s: Shape): set<Ref>
    decreases s
  {
    match s
    case LeafShape(_) => {}
    case ArrShape(ref, items) => {ref} + set i, x | 0 <= i < |items| && x in Refs(items[i]) :: x
    case ObjShape(ref, fields) => {ref} + set i, x | 0 <= i < |fields| && x in Refs(fields[i].shape) :: x
  }

  /** No object is reached twice, primitives are primitive, and no object has a key twice. */
  predicate IsTree(s: Shape)
    decreases s
  {
    match s
    case LeafShape(v) => !v.Arr? && !v.Obj?
    case ArrShape(ref, items) =>
      && (forall i :: 0 <= i < |items| ==> IsTree(items[i]) && ref !in Refs(items[i]))
      && (forall i, j :: 0 <= i < j < |items| ==> Refs(items[i]) !! Refs(items[j]))
    case ObjShape(ref, fields) =>
      && (forall i :: 0 <= i < |fields| ==> IsTree(fields[i].shape) && ref !in Refs(fields[i].shape))
      && (forall i, j :: 0 <= i < j < |fields| ==> Refs(fields[i].shape) !! Refs(fields[j].shape))
      && (forall i, j :: 0 <= i < j < |fields| ==> fields[i].key != fields[j].key)
  }

  /** The store holds a value of this shape at the slot. */
  predicate Holds(nodes: Store, slot: Slot, s: Shape)
    decreases s
  {
    match s
    case LeafShape(v) => slot == Leaf(v)
    case ArrShape(ref, items) =>
      && slot == At(ref) && ref in nodes && nodes[ref].ArrayNode? && |nodes[ref].items| == |items|
      && forall i :: 0 <= i < |items| ==> Holds(nodes, nodes[ref].items[i], items[i])
    case ObjShape(ref, fields) =>
      && slot == At(ref) && ref in nodes && nodes[ref].ObjectNode? && |nodes[ref].properties| == |fields|
      && forall i :: 0 <= i < |fields| ==>
           nodes[ref].properties[i].key == fields[i].key && Holds(nodes, nodes[ref].properties[i].slot, fields[i].shape)
  }

  /** The shape after the sanitiser: the same objects, without the forbidden keys. */
  function Cleaned(s: Shape, strict: bool): Shape
    decreases s
  {
    match s
    case LeafShape(v) => LeafShape(Clean(v, strict))
    case ArrShape(ref, items) => ArrShape(ref, CleanedItems(items, strict))
    case ObjShape(ref, fields) => ObjShape(ref, CleanedFields(fields, strict))
  }

  function CleanedItems(items: seq<Shape>, strict: bool): (r: seq<Shape>)
    ensures |r| == |items| && forall i :: 0 <= i < |items| ==> r[i] == Cleaned(items[i], strict)
    decreases items
  {
    if items == [] then [] else [Cleaned(items[0], strict)] + CleanedItems(items[1..], strict)
  }

  function CleanedFields(fields: seq<FieldShape>, strict: bool): seq<FieldShape>
    decreases fields
  {
    if fields == [] then []
    else if Forbidden(fields[0].key) then CleanedFields(fields[1..], strict)
    else [FieldShape(fields[0].key, Cleaned(fields[0].shape, strict))] + CleanedFields(fields[1..], strict)
  }

  /** In terms of values it is the sanitiser on values. */
  lemma {:induction false} CleanedValue(s: Shape, strict: bool)
    ensures Value(Cleaned(s, strict)) == Clean(Value(s), strict)
    decreases s
  {
    match s
    case LeafShape(_) =>
    case ArrShape(_, items) => CleanedItemValues(items, strict);
    case ObjShape(_, fields) => CleanedFieldValues(fields, strict);
  }

  lemma {:induction false} CleanedItemValues(items: seq<Shape>, strict: bool)
    ensures ItemValues(CleanedItems(items, strict)) == CleanItems(ItemValues(items), strict)
    decreases items
  {
    if items != [] {
      CleanedValue(items[0], strict);
      CleanedItemValues(items[1..], strict);
    }
  }

  lemma {:induction false} CleanedFieldValues(fields: seq<FieldShape>, strict: bool)
    ensures FieldValues(CleanedFields(fields, strict)) == CleanFields(FieldValues(fields), strict)
    decreases fields
  {
    if fields != [] {
      CleanedValue(fields[0].shape, strict);
      CleanedFieldValues(fields[1..], strict);
    }
  }

  lemma {:induction false} CleanedFieldsFrom(fields: seq<FieldShape>, strict: bool, j: nat)
    requires j < |CleanedFields(fields, strict)|
    ensures exists i :: 0 <= i < |fields| &&
              CleanedFields(fields, strict)[j] == FieldShape(fields[i].key, Cleaned(fields[i].shape, strict))
    decreases fields
  {
    var k := if Forbidden(fields[0].key) then j else j - 1;
    if k >= 0 {
      CleanedFieldsFrom(fields[1..], strict, k);
      var i :| 0 <= i < |fields[1..]| &&
               CleanedFields(fields[1..], strict)[k] == FieldShape(fields[1..][i].key, Cleaned(fields[1..][i].shape, strict));
      assert fields[1..][i] == fields[i + 1];
    }
  }

  /** The sanitiser reaches no object that was not there. */
  lemma {:induction false} CleanedRefs(s: Shape, strict: bool)
    ensures Refs(Cleaned(s, strict)) <= Refs(s)
    decreases s
  {
    match s
    case LeafShape(_) =>
    case ArrShape(ref, items) =>
      forall i | 0 <= i < |items| ensures Refs(CleanedItems(items, strict)[i]) <= Refs(items[i]) {
        CleanedRefs(items[i], strict);
      }
    case ObjShape(ref, fields) =>
      var cleaned := CleanedFields(fields, strict);
      forall j, x | 0 <= j < |cleaned| && x in Refs(cleaned[j].shape) ensures x in Refs(s) {
        CleanedFieldsFrom(fields, strict, j);
        var i :| 0 <= i < |fields| && cleaned[j] == FieldShape(fields[i].key, Cleaned(fields[i].shape, strict));
        CleanedRefs(fields[i].shape, strict);
      }
  }

  /** Only the shape's own objects matter to whether it is held. */
  predicate SameAt(before: Store, after: Store, refs: set<Ref>) {
    forall x :: x in refs ==> (x in before <==> x in after) && (x in before ==> before[x] == after[x])
  }

  ghost predicate SameOutside(before: Store, after: Store, refs: set<Ref>) {
    forall x :: x !in refs ==> (x in before <==> x in after) && (x in before ==> before[x] == after[x])
  }

  lemma {:induction false} HoldsFramed(before: Store, after: Store, slot: Slot, s: Shape)
    requires Holds(before, slot, s) && SameAt(before, after, Refs(s))
    ensures Holds(after, slot, s)
    decreases s
  {
    match s
    case LeafShape(_) =>
    case ArrShape(ref, items) =>
      assert ref in Refs(s);
      forall i | 0 <= i < |items| ensures Holds(after, before[ref].items[i], items[i]) {
        assert SameAt(before, after, Refs(items[i]));
        HoldsFramed(before, after, before[ref].items[i], items[i]);
      }
    case ObjShape(ref, fields) =>
      assert ref in Refs(s);
      forall i | 0 <= i < |fields| ensures Holds(after, before[ref].properties[i].slot, fields[i].shape) {
        assert SameAt(before, after, Refs(fields[i].shape));
        HoldsFramed(before, after, before[ref].properties[i].slot, fields[i].shape);
      }
  }

  function DeleteKey(properties: seq<Property>, key: Text): seq<Property> {
    if properties == [] then []
    else if properties[0].key == key then DeleteKey(properties[1..], key)
    else [properties[0]] + DeleteKey(properties[1..], key)
  }

  function AssignKey(properties: seq<Property>, key: Text, slot: Slot): seq<Property> {
    if properties == [] then [Property(key, slot)]
    else if properties[0].key == key then [Property(key, slot)] + properties[1..]
    else [properties[0]] + AssignKey(properties[1..], key, slot)
  }

  function SlotOf(properties: seq<Property>, key: Text): Slot {
    if properties == [] then Leaf(Undefined)
    else if properties[0].key == key then properties[0].slot
    else SlotOf(properties[1..], key)
  }

  predicate Lacks(properties: seq<Property>, key: Text) {
    forall i :: 0 <= i < |properties| ==> properties[i].key != key
  }

  lemma {:induction false} SlotAt(pre: seq<Property>, p: Property, rest: seq<Property>)
    requires Lacks(pre, p.key)
    ensures SlotOf(pre + [p] + rest, p.key) == p.slot
  {
    if pre != [] {
      assert (pre + [p] + rest)[1..] == pre[1..] + [p] + rest;
      SlotAt(pre[1..], p, rest);
    }
  }

  lemma {:induction false} DeleteAt(pre: seq<Property>, p: Property, rest: seq<Property>)
    requires Lacks(pre, p.key) && Lacks(rest, p.key)
    ensures DeleteKey(pre + [p] + rest, p.key) == pre + rest
  {
    var all := pre + [p] + rest;
    if pre == [] {
      assert all[1..] == rest && pre + rest == rest;
      DeleteNone(rest, p.key);
    } else {
      assert all[1..] == pre[1..] + [p] + rest;
      DeleteAt(pre[1..], p, rest);
      assert [pre[0]] + (pre[1..] + rest) == pre + rest;
    }
  }

  lemma {:induction false} AssignAt(pre: seq<Property>, p: Property, rest: seq<Property>, slot: Slot)
    requires Lacks(pre, p.key)
    ensures AssignKey(pre + [p] + rest, p.key, slot) == pre + [Property(p.key, slot)] + rest
  {
    var all := pre + [p] + rest;
    if pre == [] {
      assert all[1..] == rest && pre + [Property(p.key, slot)] + rest == [Property(p.key, slot)] + rest;
    } else {
      assert all[1..] == pre[1..] + [p] + rest;
      AssignAt(pre[1..], p, rest, slot);
      assert [pre[0]] + (pre[1..] + [Property(p.key, slot)] + rest) == pre + [Property(p.key, slot)] + rest;
    }
  }

  lemma {:induction false} DeleteNone(properties: seq<Property>, key: Text)
    requires Lacks(properties, key)
    ensures DeleteKey(properties, key) == properties
  {
    if properties != [] {
      DeleteNone(properties[1..], key);
    }
  }

  lemma {:induction false} CleanedAppend(fields: seq<FieldShape>, f: FieldShape, strict: bool)
    ensures CleanedFields(fields + [f], strict) ==
            CleanedFields(fields, strict) +
            if Forbidden(f.key) then [] else [FieldShape(f.key, Cleaned(f.shape, strict))]
    decreases fields
  {
    if fields == [] {
      assert fields + [f] == [f];
    } else {
      assert (fields + [f])[1..] == fields[1..] + [f];
      CleanedAppend(fields[1..], f, strict);
    }
  }

  class Heap {
    var nodes: Store

    constructor (nodes: Store)
      ensures this.nodes == nodes
    {
      this.nodes := nodes;
    }

    /** Overwrites the tree at a slot in place, and returns the slot's new content: the same reference,
        or the cleaned primitive. */
    method CleanStructuralHazards(target: Slot, strict: bool, ghost shape: Shape) returns (r: Slot)
      requires IsTree(shape) && Holds(nodes, target, shape)
      modifies this
      ensures Holds(nodes, r, Cleaned(shape, strict))
      ensures target.At? ==> r == target
      ensures SameOutside(old(nodes), nodes, Refs(shape))
      decreases shape, 2
    {
      if target.Leaf? {
        match target.v {
          case Str(s) => r := Leaf(Str(CleanText(s, strict)));
          case _ => r := target;
        }
        return;
      }
      r := target;
      if nodes[target.ref].ArrayNode? {
        CleanArray(target.ref, strict, shape);
      } else {
        CleanObject(target.ref, strict, shape);
      }
    }

    method CleanArray(ref: Ref, strict: bool, ghost shape: Shape)
      requires shape.ArrShape? && IsTree(shape) && Holds(nodes, At(ref), shape)
      modifies this
      ensures Holds(nodes, At(ref), Cleaned(shape, strict))
      ensures SameOutside(old(nodes), nodes, Refs(shape))
      decreases shape, 0
    {
      var i := 0;
      while i < |nodes[ref].items|
        invariant ref in nodes && nodes[ref].ArrayNode? && |nodes[ref].items| == |shape.items| && i <= |shape.items|
        invariant forall j :: 0 <= j < i ==> Holds(nodes, nodes[ref].items[j], Cleaned(shape.items[j], strict))
        invariant forall j :: i <= j < |shape.items| ==> Holds(nodes, nodes[ref].items[j], shape.items[j])
        invariant SameOutside(old(nodes), nodes, Refs(shape))
        decreases |shape.items| - i
      {
        ghost var before := nodes;
        var cleaned := CleanStructuralHazards(nodes[ref].items[i], strict, shape.items[i]);
        ArrayStep(before, nodes, ref, shape, i, cleaned, strict);
        nodes := nodes[ref := ArrayNode(nodes[ref].items[i := cleaned])];
        i := i + 1;
      }
    }

    /** One round of the loop over an object's keys. */
    method CleanProperty(ref: Ref, p: Property, strict: bool, ghost shape: Shape, ghost properties: seq<Property>,
                         ghost done: seq<Property>, ghost i: nat)
      returns (ghost next: seq<Property>)
      requires shape.ObjShape? && IsTree(shape) && ref == shape.ref && i < |shape.fields| == |properties| && p == properties[i]
      requires ref in nodes && nodes[ref] == Progress(done, properties, i)
      requires Partly(nodes, shape.fields, properties, done, i, strict)
      modifies this
      ensures ref in nodes && nodes[ref] == Progress(next, properties, i + 1)
      ensures Partly(nodes, shape.fields, properties, next, i + 1, strict)
      ensures SameOutside(old(nodes), nodes, Refs(shape))
      decreases shape, 0
    {
      hide Partly, Holds, IsTree, DeleteKey, AssignKey, SlotOf, Lacks, Refs;
      ghost var rest := properties[i + 1..];
      assert done + properties[i..] == done + [p] + rest;
      KeyStandsOnce(nodes, shape, properties, done, i, strict);
      ChildrenInside(shape, i);
      if Forbidden(p.key) {
        next := done;
        DeleteAt(done, p, rest);
        ForbiddenStep(nodes, nodes[ref := ObjectNode(done + rest)], ref, shape, properties, done, i, strict);
        nodes := nodes[ref := ObjectNode(DeleteKey(nodes[ref].properties, p.key))];
      } else {
        SlotAt(done, p, rest);
        PartlyNow(nodes, shape, properties, done, i, strict);
        ghost var before := nodes;
        var cleaned := CleanStructuralHazards(SlotOf(nodes[ref].properties, p.key), strict, shape.fields[i].shape);
        next := done + [Property(p.key, cleaned)];
        AssignAt(done, p, rest, cleaned);
        PropertyStep(before, nodes, nodes[ref := ObjectNode(next + rest)], ref, shape, properties, done, cleaned, i, strict);
        nodes := nodes[ref := ObjectNode(AssignKey(nodes[ref].properties, p.key, cleaned))];
      }
    }

    method CleanObject(ref: Ref, strict: bool, ghost shape: Shape)
      requires shape.ObjShape? && ref == shape.ref && IsTree(shape) && Holds(nodes, At(ref), shape)
      requires ref in nodes && nodes[ref].ObjectNode?
      modifies this
      ensures Holds(nodes, At(ref), Cleaned(shape, strict))
      ensures SameOutside(old(nodes), nodes, Refs(shape))
      decreases shape, 1
    {
      hide Partly, Holds, IsTree, Refs, Progress;
      PartlyStart(nodes, ref, shape, nodes[ref].properties, [], strict);
      var properties := nodes[ref].properties;
      ghost var done: seq<Property> := [];
      for i := 0 to |properties|
        invariant ref in nodes && nodes[ref] == Progress(done, properties, i)
        invariant Partly(nodes, shape.fields, properties, done, i, strict)
        invariant SameOutside(old(nodes), nodes, Refs(shape))
      {
        done := CleanProperty(ref, properties[i], strict, shape, properties, done, i);
      }
      PartlyEnd(nodes, ref, shape, properties, done, strict);
    }
  }

  /** An object whose first `i` properties are done. */
  function Progress(done: seq<Property>, properties: seq<Property>, i: nat): Node
    requires i <= |properties|
  {
    ObjectNode(done + properties[i..])
  }

  lemma PartlyStart(nodes: Store, ref: Ref, shape: Shape, properties: seq<Property>, none: seq<Property>, strict: bool)
    requires shape.ObjShape? && ref == shape.ref && Holds(nodes, At(ref), shape) && nodes[ref] == ObjectNode(properties) && none == []
    ensures Partly(nodes, shape.fields, properties, none, 0, strict)
    ensures nodes[ref] == Progress(none, properties, 0) && |properties| == |shape.fields|
  {
    assert shape.fields[..0] == [];
    assert none + properties[0..] == properties;
  }

  lemma PartlyNow(nodes: Store, shape: Shape, properties: seq<Property>, done: seq<Property>, i: nat, strict: bool)
    requires shape.ObjShape? && IsTree(shape) && i < |shape.fields| && Partly(nodes, shape.fields, properties, done, i, strict)
    ensures IsTree(shape.fields[i].shape) && Holds(nodes, properties[i].slot, shape.fields[i].shape)
  {}

  lemma PartlyEnd(nodes: Store, ref: Ref, shape: Shape, properties: seq<Property>, done: seq<Property>, strict: bool)
    requires shape.ObjShape? && ref == shape.ref && ref in nodes && nodes[ref] == Progress(done, properties, |properties|)
    requires Partly(nodes, shape.fields, properties, done, |properties|, strict)
    ensures Holds(nodes, At(ref), Cleaned(shape, strict))
  {
    assert shape.fields[..|properties|] == shape.fields;
    assert done + properties[|properties|..] == done;
  }

  lemma ChildrenInside(shape: Shape, i: nat)
    requires shape.ObjShape? && IsTree(shape) && i < |shape.fields|
    ensures Refs(shape.fields[i].shape) <= Refs(shape) && shape.ref in Refs(shape) && shape.ref !in Refs(shape.fields[i].shape)
  {}

  /** The first `i` properties are done, the others as they were. */
  ghost predicate Partly(nodes: Store, fields: seq<FieldShape>, properties: seq<Property>, done: seq<Property>, i: nat, strict: bool) {
    && |properties| == |fields| && i <= |fields|
    && (forall j :: 0 <= j < |fields| ==> properties[j].key == fields[j].key)
    && (forall j :: i <= j < |fields| ==> Holds(nodes, properties[j].slot, fields[j].shape))
    && var cleaned := CleanedFields(fields[..i], strict);
       && |done| == |cleaned|
       && forall j :: 0 <= j < |done| ==> done[j].key == cleaned[j].key && Holds(nodes, done[j].slot, cleaned[j].shape)
  }

  lemma KeyStandsOnce(nodes: Store, shape: Shape, properties: seq<Property>, done: seq<Property>, i: nat, strict: bool)
    requires shape.ObjShape? && IsTree(shape) && i < |shape.fields| && Partly(nodes, shape.fields, properties, done, i, strict)
    ensures Lacks(done, properties[i].key) && Lacks(properties[i + 1..], properties[i].key)
  {
    forall j | 0 <= j < |done| ensures done[j].key != properties[i].key {
      CleanedFieldsFrom(shape.fields[..i], strict, j);
    }
  }

  /** What a step that changes only the object itself and one child leaves of the others. */
  lemma OthersHeld(before: Store, after: Store, ref: Ref, shape: Shape, i: nat, j: nat, slot: Slot, strict: bool)
    requires shape.ObjShape? && IsTree(shape) && ref == shape.ref && i < |shape.fields| && j < |shape.fields| && i != j
    requires SameOutside(before, after, Refs(shape.fields[i].shape) + {ref})
    ensures Holds(before, slot, shape.fields[j].shape) ==> Holds(after, slot, shape.fields[j].shape)
    ensures Holds(before, slot, Cleaned(shape.fields[j].shape, strict)) ==> Holds(after, slot, Cleaned(shape.fields[j].shape, strict))
  {
    var s := shape.fields[j].shape;
    assert Refs(s) !! Refs(shape.fields[i].shape) && ref !in Refs(s);
    CleanedRefs(s, strict);
    if Holds(before, slot, s) {
      HoldsFramed(before, after, slot, s);
    }
    if Holds(before, slot, Cleaned(s, strict)) {
      HoldsFramed(before, after, slot, Cleaned(s, strict));
    }
  }

  lemma PartlyElsewhere(before: Store, after: Store, ref: Ref, shape: Shape, properties: seq<Property>,
                        done: seq<Property>, i: nat, strict: bool)
    requires shape.ObjShape? && IsTree(shape) && ref == shape.ref && i < |shape.fields|
    requires Partly(before, shape.fields, properties, done, i, strict)
    requires SameOutside(before, after, Refs(shape.fields[i].shape) + {ref})
    ensures forall j :: i < j < |shape.fields| ==> Holds(after, properties[j].slot, shape.fields[j].shape)
    ensures var cleaned := CleanedFields(shape.fields[..i], strict);
            forall j :: 0 <= j < |done| ==> Holds(after, done[j].slot, cleaned[j].shape)
  {
    var fields := shape.fields;
    var cleaned := CleanedFields(fields[..i], strict);
    forall j | i < j < |fields| ensures Holds(after, properties[j].slot, fields[j].shape) {
      OthersHeld(before, after, ref, shape, i, j, properties[j].slot, strict);
    }
    forall j | 0 <= j < |done| ensures Holds(after, done[j].slot, cleaned[j].shape) {
      CleanedFieldsFrom(fields[..i], strict, j);
      var k :| 0 <= k < i && cleaned[j] == FieldShape(fields[..i][k].key, Cleaned(fields[..i][k].shape, strict));
      assert fields[..i][k] == fields[k];
      OthersHeld(before, after, ref, shape, i, k, done[j].slot, strict);
    }
  }

  lemma ForbiddenStep(before: Store, after: Store, ref: Ref, shape: Shape, properties: seq<Property>,
                      done: seq<Property>, i: nat, strict: bool)
    requires shape.ObjShape? && IsTree(shape) && ref == shape.ref && i < |shape.fields|
    requires Partly(before, shape.fields, properties, done, i, strict)
    requires SameOutside(before, after, {ref}) && Forbidden(properties[i].key)
    ensures Partly(after, shape.fields, properties, done, i + 1, strict)
  {
    PartlyElsewhere(before, after, ref, shape, properties, done, i, strict);
    assert shape.fields[..i + 1] == shape.fields[..i] + [shape.fields[i]];
    CleanedAppend(shape.fields[..i], shape.fields[i], strict);
  }

  lemma PropertyStep(before: Store, middle: Store, after: Store, ref: Ref, shape: Shape, properties: seq<Property>,
                     done: seq<Property>, cleaned: Slot, i: nat, strict: bool)
    requires shape.ObjShape? && IsTree(shape) && ref == shape.ref && i < |shape.fields|
    requires Partly(before, shape.fields, properties, done, i, strict) && !Forbidden(properties[i].key)
    requires SameOutside(before, middle, Refs(shape.fields[i].shape)) && SameOutside(middle, after, {ref})
    requires Holds(middle, cleaned, Cleaned(shape.fields[i].shape, strict))
    ensures Partly(after, shape.fields, properties, done + [Property(properties[i].key, cleaned)], i + 1, strict)
  {
    PartlyElsewhere(before, after, ref, shape, properties, done, i, strict);
    assert shape.fields[..i + 1] == shape.fields[..i] + [shape.fields[i]];
    CleanedAppend(shape.fields[..i], shape.fields[i], strict);
    var s := shape.fields[i].shape;
    CleanedRefs(s, strict);
    assert ref !in Refs(s);
    HoldsFramed(middle, after, cleaned, Cleaned(s, strict));
  }

  lemma ArrayStep(before: Store, after: Store, ref: Ref, shape: Shape, i: nat, cleaned: Slot, strict: bool)
    requires shape.ArrShape? && IsTree(shape) && ref == shape.ref && i < |shape.items|
    requires ref in before && before[ref].ArrayNode? && |before[ref].items| == |shape.items|
    requires forall j :: 0 <= j < i ==> Holds(before, before[ref].items[j], Cleaned(shape.items[j], strict))
    requires forall j :: i < j < |shape.items| ==> Holds(before, before[ref].items[j], shape.items[j])
    requires SameOutside(before, after, Refs(shape.items[i])) && Holds(after, cleaned, Cleaned(shape.items[i], strict))
    ensures ref in after && after[ref] == before[ref]
    ensures var final := after[ref := ArrayNode(after[ref].items[i := cleaned])];
            && (forall j :: 0 <= j <= i ==> Holds(final, final[ref].items[j], Cleaned(shape.items[j], strict)))
            && (forall j :: i < j < |shape.items| ==> Holds(final, final[ref].items[j], shape.items[j]))
  {
    assert ref !in Refs(shape.items[i]);
    var final := after[ref := ArrayNode(after[ref].items[i := cleaned])];
    forall j | 0 <= j <= i ensures Holds(final, final[ref].items[j], Cleaned(shape.items[j], strict)) {
      CleanedRefs(shape.items[j], strict);
      assert ref !in Refs(shape.items[j]);
      if j == i {
        HoldsFramed(after, final, cleaned, Cleaned(shape.items[i], strict));
      } else {
        assert Refs(shape.items[j]) !! Refs(shape.items[i]);
        HoldsFramed(before, final, before[ref].items[j], Cleaned(shape.items[j], strict));
      }
    }
    forall j | i < j < |shape.items| ensures Holds(final, final[ref].items[j], shape.items[j]) {
      assert Refs(shape.items[i]) !! Refs(shape.items[j]) && ref !in Refs(shape.items[j]);
      HoldsFramed(before, final, before[ref].items[j], shape.items[j]);
    }
  }
}
