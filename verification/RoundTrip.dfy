/** Writing a nested value as form pairs, and when assembling the pairs gives it back. */
module RoundTrip {
  import opened Json
  import opened KeyParser
  import opened KeyPrinter
  import opened Assembler

  /** A value with the order its pairs are written in. */
  datatype Ordered = Text(s: string) | List(items: seq<Ordered>) | Record(fields: seq<Field>)

  datatype Field = Field(name: string, value: Ordered)

  function ToJson(v: Ordered): Json
    decreases v, 0
  {
    match v
    case Text(s) => Str(s)
    case List(items) => Arr(ItemsToJson(items))
    case Record(fields) => Obj(FieldsToJson(fields))
  }

  function ItemsToJson(items: seq<Ordered>): (r: seq<Json>)
    ensures |r| == |items|
    decreases items, 1
  {
    if items == [] then [] else [ToJson(items[0])] + ItemsToJson(items[1..])
  }

  function FieldsToJson(fields: seq<Field>): map<string, Json>
    decreases fields, 1
  {
    if fields == [] then map[] else FieldsToJson(fields[1..])[fields[0].name := ToJson(fields[0].value)]
  }

  /** The paths below a value to its strings, in order. */
  function Flatten(v: Ordered): seq<Leaf>
    decreases v, 0
  {
    match v
    case Text(s) => [Leaf([], s)]
    case List(items) => FlattenItems(items)
    case Record(fields) => FlattenFields(fields)
  }

  function FlattenItems(items: seq<Ordered>): seq<Leaf>
    decreases items, 1
  {
    if items == [] then [] else Below(ArrayPart, Flatten(items[0])) + FlattenItems(items[1..])
  }

  function FlattenFields(fields: seq<Field>): seq<Leaf>
    decreases fields, 1
  {
    if fields == [] then []
    else Below(MapPart(fields[0].name), Flatten(fields[0].value)) + FlattenFields(fields[1..])
  }

  function Below(part: KeyPart, leaves: seq<Leaf>): (r: seq<Leaf>)
    ensures |r| == |leaves|
  {
    if leaves == [] then [] else [Leaf([part] + leaves[0].path, leaves[0].value)] + Below(part, leaves[1..])
  }

  // The values that survive.

  predicate Distinct(fields: seq<Field>) {
    forall i, j | 0 <= i < j < |fields| :: fields[i].name != fields[j].name
  }

  /** Whether the record `prev` holds a string under the first name of the record that follows it. */
  predicate StartsOver(prev: Ordered, next: Ordered)
    requires next.Record?
  {
    prev.Record? && next.fields != []
    && exists i | 0 <= i < |prev.fields| :: prev.fields[i].name == next.fields[0].name && prev.fields[i].value.Text?
  }

  /** Whether the first pair of `next` starts a new array element after `prev`. */
  predicate Splits(prev: Ordered, next: Ordered) {
    prev.Record? && next.Record? ==> StartsOver(prev, next)
  }

  /**
   * No empty array or object; names of one object differ; an array inside an array has a single string
   * below it; of two adjacent objects of an array, the second starts over.
   */
  predicate Representable(v: Ordered) {
    match v
    case Text(_) => true
    case List(items) =>
      && items != []
      && (forall i | 0 <= i < |items| :: Representable(items[i]) && (items[i].List? ==> |Flatten(items[i])| == 1))
      && (forall i | 0 <= i < |items| - 1 :: Splits(items[i], items[i + 1]))
    case Record(fields) =>
      && fields != []
      && Distinct(fields)
      && (forall i | 0 <= i < |fields| :: Representable(fields[i].value))
  }

  // Putting the leaves of one value.

  lemma {:induction false} PutAllAppend(slot: Option<Json>, a: seq<Leaf>, b: seq<Leaf>)
    ensures PutAll(slot, a + b) == PutAll(PutAll(slot, a), b)
    decreases |a|
  {
    if a == [] {
      assert a + b == b;
    } else {
      assert (a + b)[0] == a[0] && (a + b)[1..] == a[1..] + b;
      PutAllAppend(Some(Put(slot, a[0].path, a[0].value)), a[1..], b);
    }
  }

  lemma PutBelowMap(slot: Option<Json>, key: string, path: seq<KeyPart>, v: string)
    ensures var m := if slot.Some? && slot.value.Obj? then slot.value.fields else map[];
      Put(slot, [MapPart(key)] + path, v) == Obj(m[key := Put(Lookup(m, key), path, v)])
  {
    assert ([MapPart(key)] + path)[1..] == path;
  }

  lemma {:induction false} PutAllBelowMap(m: map<string, Json>, key: string, leaves: seq<Leaf>)
    requires leaves != []
    ensures PutAll(Lookup(m, key), leaves).Some?
    ensures PutAll(Some(Obj(m)), Below(MapPart(key), leaves)) == Some(Obj(m[key := PutAll(Lookup(m, key), leaves).value]))
    decreases |leaves|
  {
    var below := Below(MapPart(key), leaves);
    PutBelowMap(Some(Obj(m)), key, leaves[0].path, leaves[0].value);
    var v := Put(Lookup(m, key), leaves[0].path, leaves[0].value);
    var next := m[key := v];
    assert below[1..] == Below(MapPart(key), leaves[1..]);
    if |leaves| == 1 {
      assert below[1..] == [] && leaves[1..] == [];
    } else {
      PutAllBelowMap(next, key, leaves[1..]);
      assert Lookup(next, key) == Some(v);
      assert next[key := PutAll(Some(v), leaves[1..]).value] == m[key := PutAll(Some(v), leaves[1..]).value];
    }
  }

  /** Every leaf goes into the array element it is put to. */
  ghost predicate AllExtend(last: Json, leaves: seq<Leaf>)
    decreases |leaves|
  {
    leaves == [] ||
    (Extends(last, leaves[0].path) && AllExtend(Put(Some(last), leaves[0].path, leaves[0].value), leaves[1..]))
  }

  lemma {:induction false} PutAllBelowArray(a: seq<Json>, last: Json, leaves: seq<Leaf>)
    requires AllExtend(last, leaves)
    ensures PutAll(Some(last), leaves).Some?
    ensures PutAll(Some(Arr(a + [last])), Below(ArrayPart, leaves)) == Some(Arr(a + [PutAll(Some(last), leaves).value]))
    decreases |leaves|
  {
    if leaves != [] {
      var path, v := leaves[0].path, leaves[0].value;
      var below := Below(ArrayPart, leaves);
      var items := a + [last];
      assert ([ArrayPart] + path)[1..] == path;
      var next := Put(Some(last), path, v);
      assert items[|items| - 1 := next] == a + [next];
      assert Put(Some(Arr(items)), [ArrayPart] + path, v) == Arr(a + [next]);
      assert below[1..] == Below(ArrayPart, leaves[1..]);
      PutAllBelowArray(a, next, leaves[1..]);
    }
  }

  lemma {:induction false} AllExtendAppend(last: Json, a: seq<Leaf>, b: seq<Leaf>)
    requires AllExtend(last, a)
    requires PutAll(Some(last), a).Some? && AllExtend(PutAll(Some(last), a).value, b)
    ensures AllExtend(last, a + b)
    decreases |a|
  {
    if a == [] {
      assert a + b == b;
    } else {
      assert (a + b)[0] == a[0] && (a + b)[1..] == a[1..] + b;
      AllExtendAppend(Put(Some(last), a[0].path, a[0].value), a[1..], b);
    }
  }

  lemma {:induction false} BelowMapExtends(m: map<string, Json>, key: string, leaves: seq<Leaf>)
    requires leaves != []
    requires key in m ==> IsContainer(m[key])
    requires |leaves| > 1 ==> forall l | l in leaves :: l.path != []
    requires forall l | l in leaves :: NoName(l.path)
    ensures AllExtend(Obj(m), Below(MapPart(key), leaves))
    decreases |leaves|
  {
    var path, v := leaves[0].path, leaves[0].value;
    var below := Below(MapPart(key), leaves);
    assert below[1..] == Below(MapPart(key), leaves[1..]);
    PutBelowMap(Some(Obj(m)), key, path, v);
    if |leaves| > 1 {
      assert leaves[0] in leaves && path[0] in path;
      assert forall l | l in leaves[1..] :: l in leaves;
      BelowMapExtends(m[key := Put(Lookup(m, key), path, v)], key, leaves[1..]);
    }
  }

  // What the leaves of a value look like.

  lemma {:induction false} BelowShape(part: KeyPart, leaves: seq<Leaf>)
    requires !part.RawPart?
    ensures forall l | l in Below(part, leaves) :: l.path != [] && l.path[0] == part
    ensures (forall l | l in leaves :: NoName(l.path)) ==> forall l | l in Below(part, leaves) :: NoName(l.path)
  {
    if leaves != [] {
      BelowShape(part, leaves[1..]);
      assert leaves[0] in leaves && forall l | l in leaves[1..] :: l in leaves;
    }
  }

  lemma {:induction false} FlattenShape(v: Ordered)
    ensures forall l | l in Flatten(v) :: NoName(l.path)
    ensures v.List? ==> forall l | l in Flatten(v) :: l.path != [] && l.path[0] == ArrayPart
    ensures v.Record? ==> forall l | l in Flatten(v) :: l.path != [] && l.path[0].MapPart?
    ensures Representable(v) ==> Flatten(v) != []
    ensures Representable(v) && v.Record? ==> Flatten(v)[0].path[0] == MapPart(v.fields[0].name)
    decreases v, 0
  {
    match v
    case Text(_) =>
    case List(items) =>
      ItemsShape(items);
    case Record(fields) =>
      FieldsShape(fields);
      if fields != [] {
        BelowShape(MapPart(fields[0].name), Flatten(fields[0].value));
      }
  }

  lemma {:induction false} ItemsShape(items: seq<Ordered>)
    ensures forall l | l in FlattenItems(items) :: NoName(l.path) && l.path != [] && l.path[0] == ArrayPart
    ensures items != [] && Representable(items[0]) ==> FlattenItems(items) != []
    decreases items, 1
  {
    if items != [] {
      FlattenShape(items[0]);
      BelowShape(ArrayPart, Flatten(items[0]));
      ItemsShape(items[1..]);
    }
  }

  lemma {:induction false} FieldsShape(fields: seq<Field>)
    ensures forall l | l in FlattenFields(fields) :: NoName(l.path) && l.path != [] && l.path[0].MapPart?
    ensures fields != [] && Representable(fields[0].value) ==>
      FlattenFields(fields) != [] && FlattenFields(fields)[0].path[0] == MapPart(fields[0].name)
    decreases fields, 1
  {
    if fields != [] {
      FlattenShape(fields[0].value);
      BelowShape(MapPart(fields[0].name), Flatten(fields[0].value));
      FieldsShape(fields[1..]);
    }
  }

  lemma {:induction false} FieldsToJsonAt(fields: seq<Field>)
    requires Distinct(fields)
    ensures forall i | 0 <= i < |fields| ::
      fields[i].name in FieldsToJson(fields) && FieldsToJson(fields)[fields[i].name] == ToJson(fields[i].value)
    ensures forall k | k in FieldsToJson(fields) :: exists i | 0 <= i < |fields| :: fields[i].name == k
  {
    hide ToJson;
    if fields != [] {
      var more := fields[1..];
      assert forall i, j | 0 <= i < j < |more| :: more[i] == fields[i + 1] && more[j] == fields[j + 1];
      FieldsToJsonAt(more);
      forall i | 0 <= i < |fields| ensures
        fields[i].name in FieldsToJson(fields) && FieldsToJson(fields)[fields[i].name] == ToJson(fields[i].value)
      {
        if i > 0 {
          assert more[i - 1] == fields[i];
        }
      }
      forall k | k in FieldsToJson(fields) ensures exists i | 0 <= i < |fields| :: fields[i].name == k {
        if k != fields[0].name {
          var i :| 0 <= i < |more| && more[i].name == k;
          assert fields[i + 1].name == k;
        }
      }
    }
  }

  // The pairs of one value, put into an empty place, make the value.

  lemma {:induction false} PutAllFlatten(v: Ordered)
    requires Representable(v)
    ensures PutAll(None, Flatten(v)) == Some(ToJson(v))
    ensures v.Record? ==> AllExtend(Obj(map[]), Flatten(v)) && PutAll(Some(Obj(map[])), Flatten(v)) == Some(ToJson(v))
    decreases v, 0
  {
    FlattenShape(v);
    match v
    case Text(s) =>
    case List(items) =>
      PutAllItems([], items, None);
      assert [] + ItemsToJson(items) == ItemsToJson(items);
    case Record(fields) =>
      PutAllFields(map[], fields);
      assert map[] + FieldsToJson(fields) == FieldsToJson(fields);
      var l := Flatten(v)[0];
      assert l in Flatten(v);
      assert Put(None, l.path, l.value) == Put(Some(Obj(map[])), l.path, l.value);
  }

  lemma {:induction false} PutAllFields(m: map<string, Json>, fields: seq<Field>)
    requires Distinct(fields)
    requires forall i | 0 <= i < |fields| :: Representable(fields[i].value) && fields[i].name !in m
    ensures AllExtend(Obj(m), FlattenFields(fields))
    ensures PutAll(Some(Obj(m)), FlattenFields(fields)) == Some(Obj(m + FieldsToJson(fields)))
    decreases fields, 1
  {
    if fields == [] {
      assert m + map[] == m;
    } else {
      hide Put, AllExtend, Representable, ToJson, PutAll;
      var name, value, more := fields[0].name, fields[0].value, fields[1..];
      var leaves := Flatten(value);
      var below := Below(MapPart(name), leaves);
      FlattenShape(value);
      PutAllFlatten(value);
      PutAllBelowMap(m, name, leaves);
      var next := m[name := ToJson(value)];
      BelowMapExtends(m, name, leaves);
      assert forall i, j | 0 <= i < j < |more| :: more[i] == fields[i + 1] && more[j] == fields[j + 1];
      assert forall i | 0 <= i < |more| :: more[i] == fields[i + 1];
      PutAllFields(next, more);
      PutAllAppend(Some(Obj(m)), below, FlattenFields(more));
      AllExtendAppend(Obj(m), below, FlattenFields(more));
      FirstFieldFirst(m, fields);
    }
  }

  lemma FirstFieldFirst(m: map<string, Json>, fields: seq<Field>)
    requires fields != [] && Distinct(fields)
    ensures m + FieldsToJson(fields) == m[fields[0].name := ToJson(fields[0].value)] + FieldsToJson(fields[1..])
  {
    FirstNameOnce(fields);
    var name, v, rest := fields[0].name, ToJson(fields[0].value), FieldsToJson(fields[1..]);
    assert FieldsToJson(fields) == rest[name := v];
    hide ToJson, FieldsToJson;
    assert m + rest[name := v] == m[name := v] + rest;
  }

  lemma FirstNameOnce(fields: seq<Field>)
    requires fields != [] && Distinct(fields)
    ensures fields[0].name !in FieldsToJson(fields[1..])
  {
    var more := fields[1..];
    assert forall i, j | 0 <= i < j < |more| :: more[i] == fields[i + 1] && more[j] == fields[j + 1];
    FieldsToJsonAt(more);
  }

  lemma {:induction false} PutAllItems(a: seq<Json>, items: seq<Ordered>, slot: Option<Json>)
    requires slot == if a == [] then None else Some(Arr(a))
    requires forall i | 0 <= i < |items| :: Representable(items[i]) && (items[i].List? ==> |Flatten(items[i])| == 1)
    requires forall i | 0 <= i < |items| - 1 :: Splits(items[i], items[i + 1])
    requires a != [] && items != [] ==> StartsNew(a[|a| - 1], items[0])
    ensures items != [] ==> PutAll(slot, FlattenItems(items)) == Some(Arr(a + ItemsToJson(items)))
    decreases items, 1
  {
    if items != [] {
      hide Put, PutAll, AllExtend, Representable, ToJson, Flatten, Extends, StartsNew, Splits;
      var x, more := items[0], items[1..];
      PutAllItem(a, x, slot);
      var next := a + [ToJson(x)];
      if more == [] {
        assert FlattenItems(items) == Below(ArrayPart, Flatten(x)) + [] == Below(ArrayPart, Flatten(x));
        assert ItemsToJson(items) == [ToJson(x)] + [] == [ToJson(x)];
      } else {
        assert forall i | 0 <= i < |more| :: more[i] == items[i + 1];
        assert Splits(items[0], items[1]);
        SplitsStartsNew(x, more[0]);
        PutAllItems(next, more, Some(Arr(next)));
        PutAllAppend(slot, Below(ArrayPart, Flatten(x)), FlattenItems(more));
        assert next + ItemsToJson(more) == a + ([ToJson(x)] + ItemsToJson(more));
      }
    }
  }

  /** Whether the first pair of `x` starts an array element of its own after `last`. */
  ghost predicate StartsNew(last: Json, x: Ordered) {
    Flatten(x) != [] ==> !Extends(last, Flatten(x)[0].path)
  }

  lemma SplitsStartsNew(prev: Ordered, next: Ordered)
    requires Representable(prev) && Representable(next) && Splits(prev, next)
    ensures StartsNew(ToJson(prev), next)
  {
    FlattenShape(next);
    var l := Flatten(next)[0];
    assert l in Flatten(next);
    if prev.Record? && next.Record? {
      FieldsToJsonAt(prev.fields);
      var i :| 0 <= i < |prev.fields| && prev.fields[i].name == next.fields[0].name && prev.fields[i].value.Text?;
      assert ToJson(prev.fields[i].value).Str?;
    }
  }

  lemma {:induction false} PutAllItem(a: seq<Json>, x: Ordered, slot: Option<Json>)
    requires slot == if a == [] then None else Some(Arr(a))
    requires Representable(x) && (x.List? ==> |Flatten(x)| == 1)
    requires a != [] ==> StartsNew(a[|a| - 1], x)
    ensures PutAll(slot, Below(ArrayPart, Flatten(x))) == Some(Arr(a + [ToJson(x)]))
    decreases x, 1
  {
    FlattenShape(x);
    PutAllFlatten(x);
    var leaves := Flatten(x);
    var l, more := leaves[0], leaves[1..];
    var first := Put(None, l.path, l.value);
    var below := Below(ArrayPart, leaves);
    assert below[1..] == Below(ArrayPart, more);
    assert ([ArrayPart] + l.path)[1..] == l.path;
    assert [] + [first] == [first];
    assert Put(slot, [ArrayPart] + l.path, l.value) == Arr(a + [first]);
    if x.Record? {
      assert l in leaves;
      assert first == Put(Some(Obj(map[])), l.path, l.value);
    }
    assert AllExtend(first, more);
    PutAllBelowArray(a, first, more);
  }

  // The keys the pairs are written under.

  /** A top-level object, written as the pairs of a form. */
  function Write(fields: seq<Field>): seq<Pair> {
    WriteLeaves(FlattenFields(fields))
  }

  function WriteLeaves(leaves: seq<Leaf>): seq<Pair> {
    if leaves == [] then [] else [Pair(KeyOf(leaves[0].path), leaves[0].value)] + WriteLeaves(leaves[1..])
  }

  /** The key for a path: its first name is not bracketed. */
  function KeyOf(path: seq<KeyPart>): string {
    if path == [] || !path[0].MapPart? then "" else Print([RawPart(path[0].content)] + path[1..])
  }

  /** Top-level names and the names below them fit the bracket syntax. */
  predicate Writable(fields: seq<Field>) {
    forall i | 0 <= i < |fields| :: ContentOk(RawPart(fields[i].name)) && NamesOk(fields[i].value)
  }

  predicate NamesOk(v: Ordered) {
    match v
    case Text(_) => true
    case List(items) => forall i | 0 <= i < |items| :: NamesOk(items[i])
    case Record(fields) => forall i | 0 <= i < |fields| :: ContentOk(MapPart(fields[i].name)) && NamesOk(fields[i].value)
  }

  predicate PartsOk(path: seq<KeyPart>) {
    forall p | p in path :: ContentOk(p) && !p.RawPart?
  }

  lemma {:induction false} BelowPartsOk(part: KeyPart, leaves: seq<Leaf>)
    ensures forall l | l in Below(part, leaves) :: l.path != [] && l.path[0] == part
    ensures ContentOk(part) && !part.RawPart? && (forall l | l in leaves :: PartsOk(l.path)) ==>
      forall l | l in Below(part, leaves) :: PartsOk(l.path)
    ensures (forall l | l in leaves :: PartsOk(l.path)) ==> forall l | l in Below(part, leaves) :: PartsOk(l.path[1..])
  {
    if leaves != [] {
      BelowPartsOk(part, leaves[1..]);
      assert leaves[0] in leaves && forall l | l in leaves[1..] :: l in leaves;
      assert ([part] + leaves[0].path)[1..] == leaves[0].path;
    }
  }

  lemma {:induction false} FlattenPartsOk(v: Ordered)
    requires NamesOk(v)
    ensures forall l | l in Flatten(v) :: PartsOk(l.path)
    decreases v, 0
  {
    match v
    case Text(_) =>
    case List(items) => FlattenItemsPartsOk(items);
    case Record(fields) => FlattenFieldsPartsOk(fields);
  }

  lemma {:induction false} FlattenItemsPartsOk(items: seq<Ordered>)
    requires forall i | 0 <= i < |items| :: NamesOk(items[i])
    ensures forall l | l in FlattenItems(items) :: PartsOk(l.path)
    decreases items, 1
  {
    if items != [] {
      FlattenPartsOk(items[0]);
      BelowPartsOk(ArrayPart, Flatten(items[0]));
      FlattenItemsPartsOk(items[1..]);
    }
  }

  lemma {:induction false} FlattenFieldsPartsOk(fields: seq<Field>)
    requires forall i | 0 <= i < |fields| :: ContentOk(MapPart(fields[i].name)) && NamesOk(fields[i].value)
    ensures forall l | l in FlattenFields(fields) :: PartsOk(l.path)
    decreases fields, 1
  {
    if fields != [] {
      FlattenPartsOk(fields[0].value);
      BelowPartsOk(MapPart(fields[0].name), Flatten(fields[0].value));
      FlattenFieldsPartsOk(fields[1..]);
    }
  }

  /** A path whose first name can stand unbracketed and whose other parts can be told apart. */
  predicate KeyOk(path: seq<KeyPart>) {
    path != [] && path[0].MapPart? && ContentOk(RawPart(path[0].content)) && PartsOk(path[1..])
  }

  lemma {:induction false} WrittenKeysOk(fields: seq<Field>)
    requires Writable(fields)
    ensures forall l | l in FlattenFields(fields) :: KeyOk(l.path)
  {
    if fields != [] {
      FlattenPartsOk(fields[0].value);
      BelowPartsOk(MapPart(fields[0].name), Flatten(fields[0].value));
      WrittenKeysOk(fields[1..]);
    }
  }

  lemma ParseKeyOf(path: seq<KeyPart>)
    requires KeyOk(path)
    ensures Parse(KeyOf(path)) == [RawPart(path[0].content)] + path[1..]
    ensures Accepted(KeyOf(path))
  {
    var parts := [RawPart(path[0].content)] + path[1..];
    assert forall p | p in parts :: p == parts[0] || p in path[1..];
    assert forall i | 0 < i < |parts| :: parts[i] == path[1..][i - 1];
    ParsePrint(parts);
    assert parts[1..] == path[1..];
  }

  lemma {:induction false} LeavesOfWritten(leaves: seq<Leaf>)
    requires forall l | l in leaves :: KeyOk(l.path)
    ensures Leaves(WriteLeaves(leaves)) == leaves
    ensures forall p | p in WriteLeaves(leaves) :: Accepted(p.key)
  {
    if leaves != [] {
      var form := WriteLeaves(leaves);
      var path := leaves[0].path;
      assert leaves[0] in leaves;
      assert forall l | l in leaves[1..] :: l in leaves;
      LeavesOfWritten(leaves[1..]);
      ParseKeyOf(path);
      assert form[1..] == WriteLeaves(leaves[1..]);
      assert [MapPart(path[0].content)] + path[1..] == path;
      var parts := Parse(form[0].key);
      assert parts[1..] == path[1..];
    }
  }

  /**
   * Writing an object as form pairs and assembling them gives the object back: for every object whose
   * values are representable and whose names fit the bracket syntax.
   */
  lemma {:induction false} AssembleUndoesWrite(fields: seq<Field>)
    requires Distinct(fields) && Writable(fields)
    requires forall i | 0 <= i < |fields| :: Representable(fields[i].value)
    ensures Assemble(Write(fields)) == Params(FieldsToJson(fields))
  {
    var leaves := FlattenFields(fields);
    WrittenKeysOk(fields);
    LeavesOfWritten(leaves);
    AssembleNeverPanics(Write(fields));
    PutAllFields(map[], fields);
    assert map[] + FieldsToJson(fields) == FieldsToJson(fields);
  }

  lemma {:induction false} BelowAppend(part: KeyPart, a: seq<Leaf>, b: seq<Leaf>)
    ensures Below(part, a + b) == Below(part, a) + Below(part, b)
  {
    if a == [] {
      assert a + b == b;
    } else {
      assert (a + b)[0] == a[0] && (a + b)[1..] == a[1..] + b;
      BelowAppend(part, a[1..], b);
    }
  }
}
