/** Exactly the representable values survive being written and assembled. */
module RoundTripExact {
  import opened Json
  import opened Assembler
  import opened KeyParser
  import opened RoundTrip

  /** The names of one object differ, here and below: what makes a value that of a JSON object. */
  predicate NamesDistinct(v: Ordered) {
    match v
    case Text(_) => true
    case List(items) => forall i | 0 <= i < |items| :: NamesDistinct(items[i])
    case Record(fields) => Distinct(fields) && forall i | 0 <= i < |fields| :: NamesDistinct(fields[i].value)
  }

  /** No empty array or object, and an array inside an array has a single string below it. */
  predicate Basic(v: Ordered) {
    match v
    case Text(_) => true
    case List(items) =>
      items != [] && forall i | 0 <= i < |items| :: Basic(items[i]) && (items[i].List? ==> |Flatten(items[i])| == 1)
    case Record(fields) => fields != [] && forall i | 0 <= i < |fields| :: Basic(fields[i].value)
  }

  // Assembled trees.

  /** One string below a single path. */
  predicate Single(j: Json) {
    match j
    case Arr(items) => |items| == 1 && Single(items[0])
    case Obj(m) => |m.Keys| == 1 && forall k | k in m :: Single(m[k])
    case _ => true
  }

  /** What every assembled tree is like. */
  predicate Shaped(j: Json) {
    match j
    case Arr(items) => items != [] && forall i | 0 <= i < |items| :: Shaped(items[i]) && (items[i].Arr? ==> Single(items[i]))
    case Obj(m) => m != map[] && forall k | k in m :: Shaped(m[k])
    case _ => true
  }

  lemma {:induction false} FreshIsSingle(path: seq<KeyPart>, v: string)
    requires NoName(path)
    ensures Single(Put(None, path, v)) && Shaped(Put(None, path, v))
    decreases |path|
  {
    if path != [] {
      assert path[0] in path && forall p | p in path[1..] :: p in path;
      FreshIsSingle(path[1..], v);
      var w := Put(None, path[1..], v);
      match path[0]
      case MapPart(key) => assert Put(None, path, v) == Obj(map[key := w]) && map[key := w].Keys == {key};
      case ArrayPart => PutFreshArray(path, v);
    }
  }

  lemma {:induction false} PutShaped(slot: Option<Json>, path: seq<KeyPart>, v: string)
    requires NoName(path) && (slot.Some? ==> Shaped(slot.value))
    ensures Shaped(Put(slot, path, v))
    decreases |path|
  {
    if path != [] {
      assert path[0] in path && forall p | p in path[1..] :: p in path;
      match path[0]
      case MapPart(key) =>
        var m := if slot.Some? && slot.value.Obj? then slot.value.fields else map[];
        PutShaped(Lookup(m, key), path[1..], v);
        assert key in m[key := Put(Lookup(m, key), path[1..], v)];
      case ArrayPart =>
        var a := if slot.Some? && slot.value.Arr? then slot.value.items else [];
        if a != [] && Extends(a[|a| - 1], path[1..]) {
          PutShaped(Some(a[|a| - 1]), path[1..], v);
        } else {
          FreshIsSingle(path[1..], v);
        }
    }
  }

  lemma {:induction false} PutAllShaped(slot: Option<Json>, leaves: seq<Leaf>)
    requires forall l | l in leaves :: NoName(l.path)
    requires slot.Some? ==> Shaped(slot.value)
    ensures PutAll(slot, leaves).Some? ==> Shaped(PutAll(slot, leaves).value)
    ensures leaves != [] ==> PutAll(slot, leaves).Some?
    decreases |leaves|
  {
    if leaves != [] {
      assert leaves[0] in leaves && forall l | l in leaves[1..] :: l in leaves;
      PutShaped(slot, leaves[0].path, leaves[0].value);
      PutAllShaped(Some(Put(slot, leaves[0].path, leaves[0].value)), leaves[1..]);
    }
  }

  lemma {:induction false} ItemsToJsonAt(items: seq<Ordered>, i: nat)
    requires i < |items|
    ensures ItemsToJson(items)[i] == ToJson(items[i])
  {
    if i > 0 {
      ItemsToJsonAt(items[1..], i - 1);
    }
  }

  lemma {:induction false} SingleHasOneLeaf(v: Ordered)
    requires NamesDistinct(v) && Single(ToJson(v))
    ensures |Flatten(v)| == 1
  {
    match v
    case Text(_) =>
    case List(items) =>
      ItemsToJsonAt(items, 0);
      SingleHasOneLeaf(items[0]);
      assert items[1..] == [];
      assert FlattenItems(items) == Below(ArrayPart, Flatten(items[0])) + FlattenItems([]);
    case Record(fields) =>
      FieldsToJsonAt(fields);
      OneField(fields);
      SingleHasOneLeaf(fields[0].value);
      assert fields[1..] == [];
      assert FlattenFields(fields) == Below(MapPart(fields[0].name), Flatten(fields[0].value)) + FlattenFields([]);
  }

  lemma {:induction false} OneField(fields: seq<Field>)
    requires Distinct(fields) && |FieldsToJson(fields).Keys| == 1
    ensures |fields| == 1
  {
    FieldsToJsonAt(fields);
    var keys := FieldsToJson(fields).Keys;
    if |fields| > 1 {
      var two := {fields[0].name, fields[1].name};
      assert two <= keys;
      Smaller(two, keys);
    }
  }

  lemma {:induction false} Smaller(a: set<string>, b: set<string>)
    requires a <= b
    ensures |a| <= |b|
  {
    if a != {} {
      var x :| x in a;
      Smaller(a - {x}, b - {x});
    }
  }

  /** A value whose tree could have been assembled. */
  lemma {:induction false} ShapedIsBasic(v: Ordered)
    requires NamesDistinct(v) && Shaped(ToJson(v))
    ensures Basic(v)
  {
    match v
    case Text(_) =>
    case List(items) =>
      forall i | 0 <= i < |items| ensures Basic(items[i]) && (items[i].List? ==> |Flatten(items[i])| == 1) {
        ItemsToJsonAt(items, i);
        ShapedIsBasic(items[i]);
        if items[i].List? {
          SingleHasOneLeaf(items[i]);
        }
      }
    case Record(fields) =>
      FieldsToJsonAt(fields);
      assert fields == [] ==> FieldsToJson(fields) == map[];
      forall i | 0 <= i < |fields| ensures Basic(fields[i].value) {
        assert fields[i].name in FieldsToJson(fields);
        ShapedIsBasic(fields[i].value);
      }
  }

  lemma {:induction false} BasicFlatten(v: Ordered)
    requires Basic(v)
    ensures Flatten(v) != []
    ensures v.Record? ==> Flatten(v)[0].path != [] && Flatten(v)[0].path[0] == MapPart(v.fields[0].name)
  {
    match v
    case Text(_) =>
    case List(items) => BasicFlatten(items[0]);
    case Record(fields) =>
      BasicFlatten(fields[0].value);
      var below := Below(MapPart(fields[0].name), Flatten(fields[0].value));
      BelowShape(MapPart(fields[0].name), Flatten(fields[0].value));
      assert Flatten(v) == below + FlattenFields(fields[1..]);
      assert Flatten(v)[0] == below[0] && below[0] in below;
  }

  predicate BasicFields(fields: seq<Field>) {
    Distinct(fields) && forall i | 0 <= i < |fields| :: Basic(fields[i].value)
  }

  lemma {:induction false} TailFields(fields: seq<Field>)
    requires fields != [] && BasicFields(fields)
    ensures BasicFields(fields[1..])
    ensures forall i | 0 <= i < |fields| - 1 :: fields[1..][i] == fields[i + 1] && fields[1..][i].name != fields[0].name
  {
  }

  // The fields of one object.

  lemma {:induction false} FieldExtends(m: map<string, Json>, f: Field)
    requires Basic(f.value) && (f.name in m ==> IsContainer(m[f.name]))
    ensures AllExtend(Obj(m), Below(MapPart(f.name), Flatten(f.value)))
  {
    hide AllExtend, Flatten;
    BasicFlatten(f.value);
    FlattenShape(f.value);
    LeafPaths(f.value);
    BelowMapExtends(m, f.name, Flatten(f.value));
  }

  lemma {:induction false} LeafPaths(v: Ordered)
    ensures v.Text? ==> |Flatten(v)| == 1
    ensures !v.Text? ==> forall l | l in Flatten(v) :: l.path != []
  {
    FlattenShape(v);
  }

  lemma NothingExtends(m: map<string, Json>)
    ensures AllExtend(Obj(m), FlattenFields([])) && PutAll(Some(Obj(m)), FlattenFields([])) == Some(Obj(m))
  {
  }

  /** The leaves of an object with new names go where they are put, each field by itself. */
  lemma {:induction false} FieldsExtend(m: map<string, Json>, fields: seq<Field>)
    requires BasicFields(fields) && forall i | 0 <= i < |fields| :: fields[i].name !in m
    ensures AllExtend(Obj(m), FlattenFields(fields))
    ensures var r := PutAll(Some(Obj(m)), FlattenFields(fields));
      && r.Some? && r.value.Obj?
      && (forall k :: k in r.value.fields <==> k in m || exists i | 0 <= i < |fields| :: fields[i].name == k)
      && (forall k | k in m :: r.value.fields[k] == m[k])
      && (forall i | 0 <= i < |fields| ::
            fields[i].name in r.value.fields && Some(r.value.fields[fields[i].name]) == PutAll(None, Flatten(fields[i].value)))
    decreases |fields|
  {
    hide Put, AllExtend, PutAll, Flatten, Basic;
    if fields == [] {
      NothingExtends(m);
    } else {
      var f, more := fields[0], fields[1..];
      TailFields(fields);
      BasicFlatten(f.value);
      FieldExtends(m, f);
      PutAllBelowMap(m, f.name, Flatten(f.value));
      var next := m[f.name := PutAll(None, Flatten(f.value)).value];
      FieldsExtend(next, more);
      var below := Below(MapPart(f.name), Flatten(f.value));
      PutAllAppend(Some(Obj(m)), below, FlattenFields(more));
      AllExtendAppend(Obj(m), below, FlattenFields(more));
      assert forall i | 0 < i < |fields| :: fields[i] == more[i - 1];
    }
  }

  // The items of one array.

  /** What putting an item after the items of `a` can do. */
  ghost predicate ItemAdded(a: seq<Json>, x: Ordered, b: seq<Json>) {
    || (PutAll(None, Flatten(x)).Some? && b == a + [PutAll(None, Flatten(x)).value] && (a != [] ==> StartsNew(a[|a| - 1], x)))
    || |b| == |a|
    || (|b| == |a| + 1 && x.Record? && x.fields != [] && b[|a|].Obj? && x.fields[0].name !in b[|a|].fields)
  }

  /** The first leaf starts an element, and the others go into it. */
  lemma {:induction false} AddsNew(a: seq<Json>, slot: Option<Json>, leaves: seq<Leaf>)
    requires slot == if a == [] then None else Some(Arr(a))
    requires leaves != [] && (a != [] ==> !Extends(a[|a| - 1], leaves[0].path))
    requires AllExtend(Put(None, leaves[0].path, leaves[0].value), leaves[1..])
    ensures PutAll(None, leaves).Some?
    ensures PutAll(slot, Below(ArrayPart, leaves)) == Some(Arr(a + [PutAll(None, leaves).value]))
  {
    var l, more := leaves[0], leaves[1..];
    var first := Put(None, l.path, l.value);
    var below := Below(ArrayPart, leaves);
    assert below[1..] == Below(ArrayPart, more);
    assert ([ArrayPart] + l.path)[1..] == l.path;
    assert [] + [first] == [first];
    assert Put(slot, [ArrayPart] + l.path, l.value) == Arr(a + [first]);
    PutAllBelowArray(a, first, more);
  }

  /** The leaves of an object that starts an element of its own. */
  lemma {:induction false} RecordAddsNew(a: seq<Json>, slot: Option<Json>, fields: seq<Field>)
    requires slot == if a == [] then None else Some(Arr(a))
    requires fields != [] && BasicFields(fields)
    requires a != [] ==> StartsNew(a[|a| - 1], Record(fields))
    ensures var r := PutAll(None, FlattenFields(fields));
      && r.Some? && r.value.Obj?
      && (forall k :: k in r.value.fields <==> exists i | 0 <= i < |fields| :: fields[i].name == k)
      && (forall i | 0 <= i < |fields| ::
            fields[i].name in r.value.fields && Some(r.value.fields[fields[i].name]) == PutAll(None, Flatten(fields[i].value)))
      && PutAll(slot, Below(ArrayPart, FlattenFields(fields))) == Some(Arr(a + [r.value]))
  {
    var leaves := FlattenFields(fields);
    BasicFlatten(Record(fields));
    FieldsExtend(map[], fields);
    var l := leaves[0];
    assert Put(None, l.path, l.value) == Put(Some(Obj(map[])), l.path, l.value);
    hide Put, Flatten, FlattenFields;
    AddsNew(a, slot, leaves);
  }

  /** The other fields of an object whose first field went into the last element. */
  lemma {:induction false} RestOfRecord(a: seq<Json>, fields: seq<Field>, k: string)
    requires a != [] && BasicFields(fields) && forall i | 0 <= i < |fields| :: fields[i].name != k
    ensures var r := PutAll(Some(Arr(a)), Below(ArrayPart, FlattenFields(fields)));
      && r.Some? && r.value.Arr?
      && var b := r.value.items;
         |b| == |a| || (|b| == |a| + 1 && b[|a|].Obj? && k !in b[|a|].fields)
    decreases |fields|
  {
    if fields != [] {
      hide Put, PutAll, Flatten, AllExtend;
      var f, more := fields[0], fields[1..];
      var last, leaves := a[|a| - 1], Below(MapPart(f.name), Flatten(f.value));
      TailFields(fields);
      BasicFlatten(f.value);
      if last.Obj? && (f.name in last.fields ==> IsContainer(last.fields[f.name])) {
        FieldExtends(last.fields, f);
        var front := a[..|a| - 1];
        assert front + [last] == a;
        PutAllBelowArray(front, last, leaves);
        RestOfRecord(front + [PutAll(Some(last), leaves).value], more, k);
        RoundTrip.BelowAppend(ArrayPart, leaves, FlattenFields(more));
        PutAllAppend(Some(Arr(a)), Below(ArrayPart, leaves), Below(ArrayPart, FlattenFields(more)));
      } else {
        BasicFlatten(Record(fields));
        RecordAddsNew(a, Some(Arr(a)), fields);
      }
    }
  }

  lemma {:induction false} ItemStep(a: seq<Json>, slot: Option<Json>, x: Ordered)
    requires slot == if a == [] then None else Some(Arr(a))
    requires Basic(x) && NamesDistinct(x) && (x.List? ==> |Flatten(x)| == 1)
    ensures var r := PutAll(slot, Below(ArrayPart, Flatten(x)));
      r.Some? && r.value.Arr? && ItemAdded(a, x, r.value.items)
  {
    BasicFlatten(x);
    FlattenShape(x);
    var leaves := Flatten(x);
    assert leaves[0] in leaves;
    if x.Record? {
      if a == [] || StartsNew(a[|a| - 1], x) {
        RecordAddsNew(a, slot, x.fields);
      } else {
        FirstMerges(a, x.fields);
      }
    } else {
      assert |leaves| == 1 && leaves[1..] == [];
      AddsNew(a, slot, leaves);
    }
  }

  lemma {:induction false} FirstMerges(a: seq<Json>, fields: seq<Field>)
    requires a != [] && fields != [] && BasicFields(fields) && !StartsNew(a[|a| - 1], Record(fields))
    ensures var r := PutAll(Some(Arr(a)), Below(ArrayPart, FlattenFields(fields)));
      && r.Some? && r.value.Arr?
      && var b := r.value.items;
         |b| == |a| || (|b| == |a| + 1 && b[|a|].Obj? && fields[0].name !in b[|a|].fields)
  {
    var f, more := fields[0], fields[1..];
    var last, leaves := a[|a| - 1], Below(MapPart(f.name), Flatten(f.value));
    TailFields(fields);
    BasicFlatten(Record(fields));
    assert last.Obj? && (f.name in last.fields ==> IsContainer(last.fields[f.name]));
    hide Put, PutAll, Flatten, AllExtend, Extends;
    FieldExtends(last.fields, f);
    var front := a[..|a| - 1];
    assert front + [last] == a;
    PutAllBelowArray(front, last, leaves);
    RestOfRecord(front + [PutAll(Some(last), leaves).value], more, f.name);
    RoundTrip.BelowAppend(ArrayPart, leaves, FlattenFields(more));
    PutAllAppend(Some(Arr(a)), Below(ArrayPart, leaves), Below(ArrayPart, FlattenFields(more)));
  }

  lemma {:induction false} FlattenItemsAppend(a: seq<Ordered>, b: seq<Ordered>)
    ensures FlattenItems(a + b) == FlattenItems(a) + FlattenItems(b)
    ensures ItemsToJson(a + b) == ItemsToJson(a) + ItemsToJson(b)
    decreases |a|
  {
    hide Flatten, ToJson;
    if a == [] {
      assert a + b == b;
    } else {
      assert (a + b)[0] == a[0] && (a + b)[1..] == a[1..] + b;
      FlattenItemsAppend(a[1..], b);
    }
  }

  lemma {:induction false} FlattenOneItem(x: Ordered)
    ensures FlattenItems([x]) == Below(ArrayPart, Flatten(x)) && ItemsToJson([x]) == [ToJson(x)]
  {
    assert [x][1..] == [];
    assert FlattenItems([x]) == Below(ArrayPart, Flatten(x)) + [];
  }

  /** Whether an element starts over is what decides whether its first leaf starts an element. */
  lemma {:induction false} StartsNewSplits(prev: Ordered, next: Ordered)
    requires NamesDistinct(prev) && Basic(next) && StartsNew(ToJson(prev), next)
    ensures Splits(prev, next)
  {
    if prev.Record? && next.Record? {
      BasicFlatten(next);
      FieldsToJsonAt(prev.fields);
      var k := next.fields[0].name;
      assert ToJson(prev) == Obj(FieldsToJson(prev.fields)) && !Extends(ToJson(prev), Flatten(next)[0].path);
      assert k in FieldsToJson(prev.fields);
      var i :| 0 <= i < |prev.fields| && prev.fields[i].name == k;
      assert !IsContainer(ToJson(prev.fields[i].value));
    }
  }

  ghost predicate ItemsBasic(items: seq<Ordered>) {
    forall i | 0 <= i < |items| :: Basic(items[i]) && NamesDistinct(items[i]) && (items[i].List? ==> |Flatten(items[i])| == 1)
  }

  /** Each item comes out as it went in, and starts an element of its own. */
  ghost predicate ItemsSurvive(items: seq<Ordered>) {
    && (forall i | 0 <= i < |items| :: PutAll(None, Flatten(items[i])) == Some(ToJson(items[i])))
    && (forall i | 0 <= i < |items| - 1 :: Splits(items[i], items[i + 1]))
  }

  /** The items put so far never make too many elements, and make the right ones only if every item survives. */
  lemma {:induction false} ItemsExact(items: seq<Ordered>)
    requires items != [] && ItemsBasic(items)
    ensures var r := PutAll(None, FlattenItems(items));
      && r.Some? && r.value.Arr? && 1 <= |r.value.items| <= |items|
      && (r.value.items == ItemsToJson(items) ==> ItemsSurvive(items))
    decreases |items|
  {
    hide Put, PutAll, Flatten, ToJson, StartsNew, Splits, Basic, NamesDistinct, ItemsToJson, FlattenItems;
    var n := |items| - 1;
    var front, x := items[..n], items[n];
    assert items == front + [x];
    FlattenItemsAppend(front, [x]);
    FlattenOneItem(x);
    if front == [] {
      NothingPut();
      assert FlattenItems(front) + Below(ArrayPart, Flatten(x)) == Below(ArrayPart, Flatten(x));
      ItemStep([], None, x);
      NotEmpty(None, x);
      assert [] + ItemsToJson([x]) == [ToJson(x)];
      FirstItem(x, PutAll(None, Below(ArrayPart, Flatten(x))).value.items);
    } else {
      assert ItemsBasic(front);
      ItemsExact(front);
      var a := PutAll(None, FlattenItems(front)).value.items;
      PutAllAppend(None, FlattenItems(front), Below(ArrayPart, Flatten(x)));
      ItemStep(a, Some(Arr(a)), x);
      var b := PutAll(Some(Arr(a)), Below(ArrayPart, Flatten(x))).value.items;
      LaterItem(front, x, a, b);
    }
  }

  lemma {:induction false} NothingPut()
    ensures FlattenItems([]) == [] && ItemsToJson([]) == []
  {
  }

  lemma {:induction false} NotEmpty(slot: Option<Json>, x: Ordered)
    requires Basic(x)
    ensures PutAll(None, Below(ArrayPart, Flatten(x))).Some?
    ensures var j := PutAll(None, Below(ArrayPart, Flatten(x))).value; j.Arr? ==> j.items != []
  {
    BasicFlatten(x);
    FlattenShape(x);
    BelowShape(ArrayPart, Flatten(x));
    PutAllShaped(None, Below(ArrayPart, Flatten(x)));
  }

  lemma {:induction false} FirstItem(x: Ordered, b: seq<Json>)
    requires b != [] && ItemAdded([], x, b) && Basic(x) && NamesDistinct(x)
    ensures |b| == 1 && (b == [ToJson(x)] ==> PutAll(None, Flatten(x)) == Some(ToJson(x)))
  {
    HasFirstName(x);
    hide PutAll, Flatten, ToJson;
    var made := PutAll(None, Flatten(x));
    assert made.Some? ==> [] + [made.value] == [made.value];
    assert b == [ToJson(x)] ==> b[0] == ToJson(x);
  }

  /** The value of an object has its first name. */
  lemma {:induction false} HasFirstName(x: Ordered)
    requires NamesDistinct(x)
    ensures x.Record? && x.fields != [] ==> ToJson(x).Obj? && x.fields[0].name in ToJson(x).fields
  {
    if x.Record? {
      FieldsToJsonAt(x.fields);
    }
  }

  lemma {:induction false} LaterItem(front: seq<Ordered>, x: Ordered, a: seq<Json>, b: seq<Json>)
    requires front != [] && ItemsBasic(front + [x]) && a != [] && |a| <= |front| && ItemAdded(a, x, b)
    requires a == ItemsToJson(front) ==> ItemsSurvive(front)
    ensures |b| <= |front| + 1
    ensures b != []
    ensures b == ItemsToJson(front) + [ToJson(x)] ==> ItemsSurvive(front + [x])
  {
    var items := front + [x];
    assert items[|front|] == x && items[|front| - 1] == front[|front| - 1];
    HasFirstName(x);
    if b == ItemsToJson(front) + [ToJson(x)] {
      assert |b| == |front| + 1 && b[|front|] == ToJson(x);
      var prev := front[|front| - 1];
      assert b[..|front|] == ItemsToJson(front);
      assert |b| == |a| + 1 && b[..|a|] == a;
      ItemsToJsonAt(front, |front| - 1);
      StartsNewSplits(prev, x);
      hide PutAll, Flatten, ToJson, Splits, ItemsToJson;
      assert forall i | 0 <= i < |front| :: items[i] == front[i];
    }
  }

  // All values.

  /** Only what is representable comes out as it went in. */
  lemma {:induction false} SurvivorIsRepresentable(v: Ordered)
    requires NamesDistinct(v) && Basic(v) && PutAll(None, Flatten(v)) == Some(ToJson(v))
    ensures Representable(v)
  {
    match v
    case Text(_) =>
    case List(items) =>
      ItemsExact(items);
      forall i | 0 <= i < |items| ensures Representable(items[i]) {
        SurvivorIsRepresentable(items[i]);
      }
    case Record(fields) =>
      FieldsSurvive(fields);
      forall i | 0 <= i < |fields| ensures Representable(fields[i].value) {
        SurvivorIsRepresentable(fields[i].value);
      }
  }

  lemma {:induction false} FieldsSurvive(fields: seq<Field>)
    requires BasicFields(fields) && (fields != [] ==> PutAll(None, FlattenFields(fields)) == Some(Obj(FieldsToJson(fields))))
    ensures forall i | 0 <= i < |fields| :: PutAll(None, Flatten(fields[i].value)) == Some(ToJson(fields[i].value))
  {
    if fields != [] {
      RecordAddsNew([], None, fields);
      FieldsToJsonAt(fields);
    }
  }

  /** A value is made by its leaves, put in order, exactly if it is representable. */
  lemma {:induction false} SurvivesExactly(v: Ordered)
    requires NamesDistinct(v)
    ensures PutAll(None, Flatten(v)) == Some(ToJson(v)) <==> Representable(v)
  {
    if Representable(v) {
      PutAllFlatten(v);
    } else if PutAll(None, Flatten(v)) == Some(ToJson(v)) {
      FlattenShape(v);
      PutAllShaped(None, Flatten(v));
      ShapedIsBasic(v);
      SurvivorIsRepresentable(v);
    }
  }

  /** An array of objects survives exactly if each object starts over after the one before it. */
  lemma {:induction false} ObjectsSurvive(items: seq<Ordered>)
    requires items != [] && forall i | 0 <= i < |items| :: items[i].Record? && Representable(items[i])
    ensures PutAll(None, FlattenItems(items)) == Some(Arr(ItemsToJson(items))) <==>
      forall i | 0 <= i < |items| - 1 :: StartsOver(items[i], items[i + 1])
  {
    forall i | 0 <= i < |items| ensures NamesDistinct(items[i]) {
      RepresentableNames(items[i]);
    }
    SurvivesExactly(List(items));
    assert forall i | 0 <= i < |items| - 1 :: Splits(items[i], items[i + 1]) <==> StartsOver(items[i], items[i + 1]);
  }

  lemma {:induction false} RepresentableNames(v: Ordered)
    requires Representable(v)
    ensures NamesDistinct(v)
  {
    match v
    case Text(_) =>
    case List(items) =>
      forall i | 0 <= i < |items| ensures NamesDistinct(items[i]) {
        RepresentableNames(items[i]);
      }
    case Record(fields) =>
      forall i | 0 <= i < |fields| ensures NamesDistinct(fields[i].value) {
        RepresentableNames(fields[i].value);
      }
  }

  /**
   * Writing an object as form pairs and assembling them gives the object back exactly if the values of its
   * fields are representable, for every object whose names fit the bracket syntax.
   */
  lemma {:induction false} AssembleUndoesWriteExactly(fields: seq<Field>)
    requires NamesDistinct(Record(fields)) && Writable(fields)
    ensures Assemble(Write(fields)) == Params(FieldsToJson(fields)) <==>
      forall i | 0 <= i < |fields| :: Representable(fields[i].value)
  {
    if forall i | 0 <= i < |fields| :: Representable(fields[i].value) {
      AssembleUndoesWrite(fields);
    } else if Assemble(Write(fields)) == Params(FieldsToJson(fields)) {
      var leaves := FlattenFields(fields);
      WrittenKeysOk(fields);
      LeavesOfWritten(leaves);
      AssembleNeverPanics(Write(fields));
      SurvivingFields(fields);
    }
  }

  lemma {:induction false} SurvivingFields(fields: seq<Field>)
    requires fields != [] && NamesDistinct(Record(fields))
    requires PutAll(Some(Obj(map[])), FlattenFields(fields)) == Some(Obj(FieldsToJson(fields)))
    ensures forall i | 0 <= i < |fields| :: Representable(fields[i].value)
  {
    FieldsToJsonAt(fields);
    assert fields[0].name in FieldsToJson(fields);
    var leaves := FlattenFields(fields);
    FlattenShape(Record(fields));
    assert leaves != [];
    var l := leaves[0];
    assert l in leaves;
    assert Put(None, l.path, l.value) == Put(Some(Obj(map[])), l.path, l.value);
    SurvivesExactly(Record(fields));
  }
}
