/**
 * The assembler as it runs: parameter maps are objects that a merge updates in place. The methods here
 * are proved against the functions of module Assembler.
 */
module AssemblerHeap {
  import opened Json
  import opened KeyParser
  import opened Asm = Assembler

  /** One parameter map; other maps and arrays refer to it. */
  class MapNode {
    var entries: map<string, Value>

    constructor ()
      ensures entries == map[]
    {
      entries := map[];
    }
  }

  datatype Value = Text(s: string) | List(items: seq<Value>) | Table(node: MapNode)

  /** A tree of values with the map objects it is stored in. */
  datatype Shape = Leaf(s: string) | Items(items: seq<Shape>) | Node(ref: MapNode, children: map<string, Shape>)

  ghost function ValueOf(s: Shape): Value {
    match s
    case Leaf(text) => Text(text)
    case Items(items) => List(ValuesOf(items))
    case Node(ref, _) => Table(ref)
  }

  ghost function ValuesOf(items: seq<Shape>): (r: seq<Value>)
    ensures |r| == |items|
    ensures forall i | 0 <= i < |r| :: r[i] == ValueOf(items[i])
  {
    if items == [] then [] else [ValueOf(items[0])] + ValuesOf(items[1..])
  }

  ghost function Abs(s: Shape): Json {
    match s
    case Leaf(text) => Str(text)
    case Items(items) => Arr(seq(|items|, i requires 0 <= i < |items| => Abs(items[i])))
    case Node(_, children) => Obj(map k | k in children :: Abs(children[k]))
  }

  ghost function Fields(s: Shape): map<string, Json>
    requires s.Node?
  {
    Abs(s).fields
  }

  ghost function Refs(s: Shape): set<MapNode> {
    match s
    case Leaf(_) => {}
    case Items(items) => set i, n | 0 <= i < |items| && n in Refs(items[i]) :: n
    case Node(ref, children) => {ref} + (set k, n | k in children && n in Refs(children[k]) :: n)
  }

  /** No map object occurs twice. */
  ghost predicate Separate(s: Shape) {
    match s
    case Leaf(_) => true
    case Items(items) =>
      && (forall i | 0 <= i < |items| :: Separate(items[i]))
      && (forall i, j | 0 <= i < j < |items| :: Refs(items[i]) !! Refs(items[j]))
    case Node(ref, children) =>
      && (forall k | k in children :: Separate(children[k]) && ref !in Refs(children[k]))
      && (forall k, k' | k in children && k' in children && k != k' :: Refs(children[k]) !! Refs(children[k']))
  }

  /** The map objects hold what the shape says. */
  ghost predicate Stored(s: Shape)
    reads Refs(s)
  {
    match s
    case Leaf(_) => true
    case Items(items) => forall i | 0 <= i < |items| :: Stored(items[i])
    case Node(ref, children) =>
      && ref.entries == (map k | k in children :: ValueOf(children[k]))
      && (forall k | k in children :: Stored(children[k]))
  }

  ghost predicate Good(s: Shape)
    reads Refs(s)
  {
    Separate(s) && Stored(s)
  }

  /** The map objects below one key. */
  ghost function Below(children: map<string, Shape>, k: string): set<MapNode> {
    if k in children then Refs(children[k]) else {}
  }

  /** Merges one entry of the second map into the first, over the value the key has there, if any. */
  method MergeEntry(map1: MapNode, key: string, val2: Value, ghost c1: Shape, ghost c2: Shape)
      returns (ghost merged: Shape)
    requires val2 == ValueOf(c2) && Good(c2) && map1 !in Refs(c2)
    requires key in map1.entries ==>
      && map1.entries[key] == ValueOf(c1) && Good(c1) && map1 !in Refs(c1) && Refs(c1) !! Refs(c2)
      && MergeValues(Abs(c1), Abs(c2)).Some?
    modifies map1, if key in map1.entries then Refs(c1) else {}
    ensures map1.entries == old(map1.entries)[key := ValueOf(merged)]
    ensures Good(merged)
    ensures if key in old(map1.entries) then
        Refs(merged) <= Refs(c1) + Refs(c2) && MergeValues(Abs(c1), Abs(c2)) == Some(Abs(merged))
      else merged == c2
    decreases c2, 1
  {
    hide *;
    if key in map1.entries {
      var val1 := map1.entries[key];
      EntryCases(c1, c2);
      if val1.Table? && val2.Table? {
        merged := MergeMapsRecursive(val1.node, val2.node, c1, c2);
        NodeView(merged);
        NodeView(c1);
        assert map1.entries == old(map1.entries)[key := val1];
        return;
      }
      if val1.List? && val2.List? {
        var ok, a1 := MaybeCollapseArrays(val1.items, val2.items, c1.items, c2.items);
        merged := Items(a1);
        ItemsView(merged);
        assert c1 == Items(c1.items) && c2 == Items(c2.items);
        if !ok {
          map1.entries := map1.entries[key := List(val1.items + val2.items)];
          merged := Items(c1.items + c2.items);
          AppendItems(c1.items, c2.items);
          AppendView(c1.items, c2.items);
          ItemsView(merged);
        } else {
          assert map1.entries == old(map1.entries)[key := val1];
        }
        return;
      }
    }
    map1.entries := map1.entries[key := val2];
    merged := c2;
  }

  lemma RefsOfItem(items: seq<Shape>, i: nat)
    requires i < |items|
    ensures Refs(items[i]) <= Refs(Items(items))
  {
  }

  lemma ElementsAt(items: seq<Shape>)
    ensures |Elements(items)| == |items| && forall i | 0 <= i < |items| :: Elements(items)[i] == Abs(items[i])
  {
  }

  lemma AppendView(a1: seq<Shape>, a2: seq<Shape>)
    ensures ValuesOf(a1 + a2) == ValuesOf(a1) + ValuesOf(a2)
    ensures Elements(a1 + a2) == Elements(a1) + Elements(a2)
  {
    hide Abs, ValueOf, ValuesOf, Elements;
    ElementsAt(a1);
    ElementsAt(a2);
    ElementsAt(a1 + a2);
  }

  lemma AppendItems(a1: seq<Shape>, a2: seq<Shape>)
    requires Good(Items(a1)) && Good(Items(a2)) && Refs(Items(a1)) !! Refs(Items(a2))
    ensures Good(Items(a1 + a2)) && Refs(Items(a1 + a2)) <= Refs(Items(a1)) + Refs(Items(a2))
  {
    var a := a1 + a2;
    forall i, j | 0 <= i < j < |a| ensures Refs(a[i]) !! Refs(a[j]) {
      if i < |a1| <= j {
        RefsOfItem(a1, i);
        RefsOfItem(a2, j - |a1|);
      }
    }
  }

  method MaybeCollapseArrays(arr1: seq<Value>, arr2: seq<Value>, ghost a1: seq<Shape>, ghost a2: seq<Shape>)
      returns (ok: bool, ghost merged: seq<Shape>)
    requires arr1 == ValuesOf(a1) && arr2 == ValuesOf(a2)
    requires Good(Items(a1)) && Good(Items(a2)) && Refs(Items(a1)) !! Refs(Items(a2))
    requires !Asm.MaybeCollapseArrays(Elements(a1), Elements(a2)).Panics?
    modifies Refs(Items(a1))
    ensures ok ==> Asm.MaybeCollapseArrays(Elements(a1), Elements(a2)) == Merged(Elements(merged))
    ensures ok ==> ValuesOf(merged) == arr1
    ensures ok ==> Good(Items(merged)) && Refs(Items(merged)) <= Refs(Items(a1)) + Refs(Items(a2))
    ensures !ok ==> Asm.MaybeCollapseArrays(Elements(a1), Elements(a2)).Separate?
    ensures !ok ==> Good(Items(a1)) && Good(Items(a2))
    decreases Items(a2), 0
  {
    hide Abs, ValueOf, ValuesOf, Separate, Elements, Fields, Clash, Good, Asm.MaybeCollapseArrays;
    merged := a1;
    CollapseCases(a1, a2);
    ghost var n := |a1| - 1;
    var last := arr1[|arr1| - 1];
    if !last.Table? || !arr2[0].Table? {
      return false, a1;
    }
    var arr1Map, arr2Map := last.node, arr2[0].node;
    ClashView(a1[n], a2[0]);
    if exists key | key in arr2Map.entries :: key in arr1Map.entries && arr1Map.entries[key].Text? {
      return false, a1;
    }
    label before:
    ghost var c := MergeMapsRecursive(arr1Map, arr2Map, a1[n], a2[0]);
    merged := a1[n := c];
    forall i | 0 <= i < n ensures Stored(a1[i]) {
      assert old@before(Stored(a1[i]));
      assert Refs(a1[i]) !! Refs(a1[n]);
      assert old@before(allocated(a1[i]) && allocated(Refs(a1[i])));
    }
    NodeView(c);
    NodeView(a1[n]);
    ReplaceLast(a1, a2[0], c);
    ReplaceLastView(a1, c);
    ok := true;
  }

  /** The elements an array of shapes stands for. */
  ghost function Elements(items: seq<Shape>): seq<Json> {
    Abs(Items(items)).items
  }

  /** Some key of `m2` holds a scalar in `m1`. */
  ghost predicate Clash(m1: map<string, Json>, m2: map<string, Json>) {
    exists key | key in m2 :: key in m1 && !IsContainer(m1[key])
  }

  lemma NodeView(s: Shape)
    requires s.Node?
    ensures ValueOf(s) == Table(s.ref) && Abs(s) == Obj(Fields(s))
  {
  }

  lemma ItemsView(s: Shape)
    requires s.Items?
    ensures ValueOf(s) == List(ValuesOf(s.items)) && Abs(s) == Arr(Elements(s.items))
  {
  }

  /** The two ways in which one value is merged into another; any other pair is replaced. */
  lemma EntryCases(c1: Shape, c2: Shape)
    requires MergeValues(Abs(c1), Abs(c2)).Some?
    ensures (ValueOf(c1).Table? <==> c1.Node?) && (ValueOf(c1).List? <==> c1.Items?)
    ensures (ValueOf(c2).Table? <==> c2.Node?) && (ValueOf(c2).List? <==> c2.Items?)
    ensures c1.Node? ==> ValueOf(c1).node == c1.ref
    ensures c2.Node? ==> ValueOf(c2).node == c2.ref
    ensures c1.Items? ==> ValueOf(c1).items == ValuesOf(c1.items)
    ensures c2.Items? ==> ValueOf(c2).items == ValuesOf(c2.items)
    ensures var r := MergeValues(Abs(c1), Abs(c2)).value;
      if c1.Node? && c2.Node? then MergeMaps(Fields(c1), Fields(c2)).Some? && r == Obj(MergeMaps(Fields(c1), Fields(c2)).value)
      else if c1.Items? && c2.Items? then
        (match Asm.MaybeCollapseArrays(Elements(c1.items), Elements(c2.items))
         case Panics => false
         case Separate => r == Arr(Elements(c1.items) + Elements(c2.items))
         case Merged(arr) => r == Arr(arr))
      else r == Abs(c2)
  {
  }

  lemma ClashView(s1: Shape, s2: Shape)
    requires s1.Node? && s2.Node? && Stored(s1) && Stored(s2)
    ensures Clash(Fields(s1), Fields(s2)) <==>
      exists key | key in s2.ref.entries :: key in s1.ref.entries && s1.ref.entries[key].Text?
  {
    hide ValueOf, Abs, Stored, Fields;
    NodeEntries(s1);
    NodeEntries(s2);
  }

  lemma CollapseCases(a1: seq<Shape>, a2: seq<Shape>)
    requires Good(Items(a1)) && Good(Items(a2)) && Refs(Items(a1)) !! Refs(Items(a2))
    requires !Asm.MaybeCollapseArrays(Elements(a1), Elements(a2)).Panics?
    ensures |a2| == |ValuesOf(a2)| == 1 && |a1| == |ValuesOf(a1)| > 0
    ensures var c1, c2, r := a1[|a1| - 1], a2[0], Asm.MaybeCollapseArrays(Elements(a1), Elements(a2));
      && Good(c1) && Good(c2) && Refs(c1) !! Refs(c2) && Separate(Items(a1))
      && Refs(c1) <= Refs(Items(a1)) && Refs(c2) <= Refs(Items(a2)) && Refs(Items(a1)) !! Refs(c2)
      && ValuesOf(a1)[|a1| - 1] == ValueOf(c1) && ValuesOf(a2)[0] == ValueOf(c2)
      && (forall i | 0 <= i < |a1| - 1 :: Stored(a1[i]) && Refs(a1[i]) !! Refs(c1))
      && (ValueOf(c1).Table? <==> c1.Node?) && (ValueOf(c2).Table? <==> c2.Node?)
      && (c1.Node? ==> ValueOf(c1).node == c1.ref)
      && (c2.Node? ==> ValueOf(c2).node == c2.ref)
      && (!(c1.Node? && c2.Node?) ==> r.Separate?)
      && (c1.Node? && c2.Node? ==>
            if Clash(Fields(c1), Fields(c2)) then r.Separate?
            else (MergeMaps(Fields(c1), Fields(c2)).Some?
                  && r == Merged(Elements(a1)[|a1| - 1 := Obj(MergeMaps(Fields(c1), Fields(c2)).value)])))
  {
    RefsOfItem(a1, |a1| - 1);
    RefsOfItem(a2, 0);
    var j1, j2 := Elements(a1), Elements(a2);
    assert j1[|j1| - 1] == Abs(a1[|a1| - 1]) && j2[0] == Abs(a2[0]);
  }

  lemma ReplaceLast(a1: seq<Shape>, x: Shape, c: Shape)
    requires a1 != []
    requires Separate(Items(a1)) && Refs(Items(a1)) !! Refs(x)
    requires forall i | 0 <= i < |a1| - 1 :: Stored(a1[i])
    requires Good(c) && Refs(c) <= Refs(a1[|a1| - 1]) + Refs(x)
    ensures var r := a1[|a1| - 1 := c]; Good(Items(r)) && Refs(Items(r)) <= Refs(Items(a1)) + Refs(x)
  {
    hide ValueOf, ValuesOf, Abs;
    var n := |a1| - 1;
    var r := a1[n := c];
    LastApart(a1, x, c);
    forall i, m | 0 <= i < |r| && m in Refs(r[i]) ensures m in Refs(Items(a1)) + Refs(x) {
      RefsOfItem(a1, i);
    }
    assert forall i | 0 <= i < |r| :: Separate(r[i]) && Stored(r[i]);
  }

  lemma LastApart(a1: seq<Shape>, x: Shape, c: Shape)
    requires a1 != [] && Separate(Items(a1)) && Refs(Items(a1)) !! Refs(x) && Refs(c) <= Refs(a1[|a1| - 1]) + Refs(x)
    ensures var r := a1[|a1| - 1 := c]; forall i, j | 0 <= i < j < |r| :: Refs(r[i]) !! Refs(r[j])
  {
    hide Refs, Separate;
    var r := a1[|a1| - 1 := c];
    ItemsApart(a1);
    forall i, j | 0 <= i < j < |r| ensures Refs(r[i]) !! Refs(r[j]) {
      RefsOfItem(a1, i);
      assert r[i] == a1[i];
    }
  }

  lemma ItemsApart(items: seq<Shape>)
    requires Separate(Items(items))
    ensures forall i, j | 0 <= i < j < |items| :: Refs(items[i]) !! Refs(items[j])
  {
  }

  lemma ReplaceLastView(a1: seq<Shape>, c: Shape)
    requires a1 != [] && ValueOf(c) == ValueOf(a1[|a1| - 1])
    ensures var r := a1[|a1| - 1 := c];
      && ValuesOf(r) == ValuesOf(a1) && |Elements(a1)| == |a1|
      && Elements(r) == Elements(a1)[|a1| - 1 := Abs(c)]
  {
    hide Abs, ValueOf, ValuesOf, Elements;
    var r := a1[|a1| - 1 := c];
    ElementsAt(a1);
    ElementsAt(r);
    assert forall i | 0 <= i < |r| :: ValuesOf(r)[i] == ValuesOf(a1)[i];
  }

  lemma NodeEntries(s: Shape)
    requires s.Node? && Stored(s)
    ensures s.ref.entries.Keys == s.children.Keys == Fields(s).Keys
    ensures forall k | k in s.children ::
      s.ref.entries[k] == ValueOf(s.children[k]) && (s.ref.entries[k].Text? <==> !IsContainer(Fields(s)[k]))
  {
    forall k | k in s.children ensures ValueOf(s.children[k]).Text? <==> !IsContainer(Abs(s.children[k])) {
      match s.children[k]
      case Leaf(_) =>
      case Items(_) =>
      case Node(_, _) =>
    }
  }

  /** The map objects that may end up below `k` when the two maps are merged. */
  ghost function Zone(ch1: map<string, Shape>, ch2: map<string, Shape>, k: string): set<MapNode> {
    Below(ch1, k) + Below(ch2, k)
  }

  lemma ZonesApart(s1: Shape, s2: Shape)
    requires s1.Node? && s2.Node? && Separate(s1) && Separate(s2) && Refs(s1) !! Refs(s2)
    ensures forall k :: s1.ref !in Zone(s1.children, s2.children, k) && s2.ref !in Zone(s1.children, s2.children, k)
    ensures forall k :: Zone(s1.children, s2.children, k) <= Refs(s1) + Refs(s2)
    ensures forall k, k' | k != k' :: Zone(s1.children, s2.children, k) !! Zone(s1.children, s2.children, k')
    ensures forall k | k in s1.children :: Refs(s1.children[k]) <= Zone(s1.children, s2.children, k)
    ensures s1.ref in Refs(s1) && s2.ref in Refs(s2)
  {
  }

  lemma ChildrenGood(s: Shape)
    requires s.Node? && Good(s)
    ensures forall k | k in s.children :: Good(s.children[k]) && Refs(s.children[k]) == Below(s.children, k) <= Refs(s)
    ensures s.ref.entries == map k | k in s.children :: ValueOf(s.children[k])
    ensures Separate(s)
    ensures s.ref in Refs(s)
  {
  }

  /** What the merge has done when the keys in `todo` are left. */
  ghost predicate Progress(ch1: map<string, Shape>, ch2: map<string, Shape>, cur: map<string, Shape>, todo: set<string>) {
    && todo <= ch2.Keys
    && cur.Keys == ch1.Keys + (ch2.Keys - todo)
    && (forall k | k in cur :: Refs(cur[k]) <= Zone(ch1, ch2, k))
    && (forall k | k in cur && (k !in ch2 || k in todo) :: cur[k] == ch1[k])
    && (forall k | k in ch2 && k !in todo ::
          if k in ch1 then MergeValues(Abs(ch1[k]), Abs(ch2[k])) == Some(Abs(cur[k])) else cur[k] == ch2[k])
  }

  /** `c` is what merging the entry `key` of the second map into the first gives. */
  ghost predicate Combined(ch1: map<string, Shape>, ch2: map<string, Shape>, key: string, c: Shape)
    requires key in ch2
  {
    if key in ch1 then
      Refs(c) <= Refs(ch1[key]) + Refs(ch2[key]) && MergeValues(Abs(ch1[key]), Abs(ch2[key])) == Some(Abs(c))
    else c == ch2[key]
  }

  lemma ProgressStart(ch1: map<string, Shape>, ch2: map<string, Shape>)
    ensures Progress(ch1, ch2, ch1, ch2.Keys)
  {
  }

  lemma ProgressStep(ch1: map<string, Shape>, ch2: map<string, Shape>, cur: map<string, Shape>, todo: set<string>,
                     key: string, c: Shape)
    requires Progress(ch1, ch2, cur, todo) && key in todo
    requires Combined(ch1, ch2, key, c)
    ensures Progress(ch1, ch2, cur[key := c], todo - {key})
  {
    hide Abs, MergeValues, Refs;
  }

  lemma ProgressEnd(s1: Shape, s2: Shape, cur: map<string, Shape>)
    requires s1.Node? && s2.Node? && Separate(s1) && Separate(s2) && Refs(s1) !! Refs(s2)
    requires MergeMaps(Fields(s1), Fields(s2)).Some?
    requires Progress(s1.children, s2.children, cur, {})
    requires s1.ref.entries == map k | k in cur :: ValueOf(cur[k])
    requires forall k | k in cur :: Good(cur[k])
    ensures var r := Node(s1.ref, cur);
      && Good(r) && Refs(r) <= Refs(s1) + Refs(s2)
      && MergeMaps(Fields(s1), Fields(s2)) == Some(Fields(r))
  {
    ProgressEndView(s1, s2, cur);
    ZonesApart(s1, s2);
    hide *;
    ProgressZones(s1.children, s2.children, cur, {});
    NodeGood(s1.ref, cur, Refs(s1) + Refs(s2));
  }

  lemma ProgressZones(ch1: map<string, Shape>, ch2: map<string, Shape>, cur: map<string, Shape>, todo: set<string>)
    requires Progress(ch1, ch2, cur, todo)
    ensures todo <= ch2.Keys
    ensures forall k | k in cur :: Refs(cur[k]) <= Zone(ch1, ch2, k)
    ensures forall k | k in todo :: (k in cur <==> k in ch1) && (k in cur ==> cur[k] == ch1[k])
  {
  }

  lemma NodeGood(ref: MapNode, children: map<string, Shape>, space: set<MapNode>)
    requires forall k | k in children :: Good(children[k]) && Refs(children[k]) <= space - {ref}
    requires forall k, k' | k in children && k' in children && k != k' :: Refs(children[k]) !! Refs(children[k'])
    requires ref.entries == map k | k in children :: ValueOf(children[k])
    requires ref in space
    ensures Good(Node(ref, children)) && Refs(Node(ref, children)) <= space
  {
  }

  lemma ProgressEndView(s1: Shape, s2: Shape, cur: map<string, Shape>)
    requires s1.Node? && s2.Node?
    requires MergeMaps(Fields(s1), Fields(s2)).Some?
    requires Progress(s1.children, s2.children, cur, {})
    ensures MergeMaps(Fields(s1), Fields(s2)) == Some(Fields(Node(s1.ref, cur)))
  {
    hide Abs, MergeValues, Refs, Zone, MergeMaps, Fields;
    FieldsAt(s1);
    FieldsAt(s2);
    FieldsAt(Node(s1.ref, cur));
    MergeMapsAt(Fields(s1), Fields(s2), Fields(Node(s1.ref, cur)));
  }

  lemma FieldsAt(s: Shape)
    requires s.Node?
    ensures Fields(s).Keys == s.children.Keys && forall k | k in s.children :: Fields(s)[k] == Abs(s.children[k])
  {
  }

  lemma MergeMapsAt(m1: map<string, Json>, m2: map<string, Json>, r: map<string, Json>)
    requires MergeMaps(m1, m2).Some? && r.Keys == m1.Keys + m2.Keys
    requires forall k | k in r ::
      if k !in m2 then r[k] == m1[k]
      else if k !in m1 then r[k] == m2[k]
      else MergeValues(m1[k], m2[k]) == Some(r[k])
    ensures MergeMaps(m1, m2) == Some(r)
  {
    var m := MergeMaps(m1, m2).value;
    assert m.Keys == r.Keys;
    assert forall k | k in r :: m[k] == r[k];
    assert m == r;
  }

  lemma MergeMapsDefined(s1: Shape, s2: Shape)
    requires s1.Node? && s2.Node? && MergeMaps(Fields(s1), Fields(s2)).Some?
    ensures forall k | k in s1.children && k in s2.children ::
      MergeValues(Abs(s1.children[k]), Abs(s2.children[k])).Some?
  {
    FieldsAt(s1);
    FieldsAt(s2);
  }

  /** Writing to the first map and below one of its keys leaves the other keys and the second map alone. */
  lemma OthersApart(s1: Shape, s2: Shape, cur: map<string, Shape>, todo: set<string>, key: string)
    requires s1.Node? && s2.Node? && Separate(s1) && Separate(s2) && Refs(s1) !! Refs(s2)
    requires Progress(s1.children, s2.children, cur, todo) && key in todo
    ensures var changed := {s1.ref} + Below(s1.children, key);
      && s2.ref !in changed
      && (forall k | k in cur && k != key :: Refs(cur[k]) !! changed)
      && (forall k | k in todo :: k in s2.children && Refs(s2.children[k]) !! changed)
      && s1.ref !in Refs(s2.children[key])
      && (key in s1.children ==> key in cur && cur[key] == s1.children[key] && s1.ref !in Refs(cur[key]))
      && (key !in s1.children ==> key !in cur)
  {
    ZonesApart(s1, s2);
    ProgressZones(s1.children, s2.children, cur, todo);
    hide Zone, Progress, Refs, Separate;
    forall k | k in cur && k != key ensures Refs(cur[k]) !! {s1.ref} + Below(s1.children, key) {
      assert Zone(s1.children, s2.children, k) !! Zone(s1.children, s2.children, key);
    }
    RefsOfChildren(s1);
    RefsOfChildren(s2);
  }

  lemma RefsOfChildren(s: Shape)
    requires s.Node?
    ensures s.ref in Refs(s)
    ensures forall k | k in s.children :: Refs(s.children[k]) <= Refs(s)
  {
  }

  /** The state of the merge loop: the first map holds `cur`, the keys in `todo` of the second are left. */
  ghost predicate Merging(s1: Shape, s2: Shape, cur: map<string, Shape>, todo: set<string>)
    requires s1.Node? && s2.Node? && todo <= s2.children.Keys
    reads s1.ref, s2.ref, set k, n | k in cur && n in Refs(cur[k]) :: n, set k, n | k in todo && n in Refs(s2.children[k]) :: n
  {
    && Progress(s1.children, s2.children, cur, todo)
    && s2.ref.entries == (map k | k in s2.children :: ValueOf(s2.children[k]))
    && (forall k | k in todo :: Good(s2.children[k]))
    && s1.ref.entries == (map k | k in cur :: ValueOf(cur[k]))
    && (forall k | k in cur :: Good(cur[k]))
  }

  ghost predicate Mergeable(s1: Shape, s2: Shape) {
    && s1.Node? && s2.Node? && Separate(s1) && Separate(s2) && Refs(s1) !! Refs(s2)
    && MergeMaps(Fields(s1), Fields(s2)).Some?
  }

  lemma MergeStart(s1: Shape, s2: Shape)
    requires Good(s1) && Good(s2) && s1.Node? && s2.Node? && Refs(s1) !! Refs(s2)
    requires MergeMaps(Fields(s1), Fields(s2)).Some?
    ensures Mergeable(s1, s2) && Merging(s1, s2, s1.children, s2.children.Keys)
    ensures s2.ref.entries.Keys == s2.children.Keys && s1.ref in Refs(s1)
  {
    ZonesApart(s1, s2);
    ChildrenGood(s1);
    ChildrenGood(s2);
    ProgressStart(s1.children, s2.children);
  }

  /** The objects the step for `key` writes to. */
  ghost function Written(s1: Shape, key: string): set<MapNode>
    requires s1.Node?
  {
    {s1.ref} + Below(s1.children, key)
  }

  /** What the step for `key` may rely on. */
  lemma MergeStepReady(s1: Shape, s2: Shape, cur: map<string, Shape>, todo: set<string>, key: string)
    requires Mergeable(s1, s2) && todo <= s2.children.Keys && Merging(s1, s2, cur, todo) && key in todo
    ensures key in s2.ref.entries && s2.ref.entries[key] == ValueOf(s2.children[key])
    ensures Good(s2.children[key]) && s1.ref !in Refs(s2.children[key])
    ensures key in s1.ref.entries <==> key in s1.children
    ensures key in s1.children ==>
      && s1.ref.entries[key] == ValueOf(s1.children[key])
      && Good(s1.children[key]) && s1.ref !in Refs(s1.children[key]) && Refs(s1.children[key]) !! Refs(s2.children[key])
      && MergeValues(Abs(s1.children[key]), Abs(s2.children[key])).Some?
    ensures Written(s1, key) == {s1.ref} + if key in s1.children then Refs(s1.children[key]) else {}
    ensures Written(s1, key) <= Refs(s1)
  {
    OthersApart(s1, s2, cur, todo, key);
    MergeMapsDefined(s1, s2);
    RefsOfChildren(s1);
  }

  lemma MergeStepDone(s1: Shape, s2: Shape, cur: map<string, Shape>, todo: set<string>, key: string, c: Shape)
    requires Mergeable(s1, s2) && todo <= s2.children.Keys && key in todo
    requires Progress(s1.children, s2.children, cur, todo)
    requires s2.ref.entries == map k | k in s2.children :: ValueOf(s2.children[k])
    requires s1.ref.entries == (map k | k in cur :: ValueOf(cur[k]))[key := ValueOf(c)]
    requires Good(c) && (forall k | k in cur && k != key :: Good(cur[k])) && forall k | k in todo :: Good(s2.children[k])
    requires Combined(s1.children, s2.children, key, c)
    ensures Merging(s1, s2, cur[key := c], todo - {key})
  {
    hide Good, Separate, Stored, Abs, ValueOf, ValuesOf, MergeValues, MergeMaps, Zone, Fields, Below, Refs, Progress, Combined;
    EntriesStep(cur, key, c);
    ProgressStep(s1.children, s2.children, cur, todo, key, c);
  }

  lemma EntriesStep(cur: map<string, Shape>, key: string, c: Shape)
    ensures (map k | k in cur :: ValueOf(cur[k]))[key := ValueOf(c)] ==
      var next := cur[key := c]; map k | k in next :: ValueOf(next[k])
  {
    hide ValueOf;
  }

  lemma MergingParts(s1: Shape, s2: Shape, cur: map<string, Shape>, todo: set<string>, key: string)
    requires Mergeable(s1, s2) && todo <= s2.children.Keys && Merging(s1, s2, cur, todo) && key in todo
    ensures Progress(s1.children, s2.children, cur, todo)
    ensures s2.ref.entries == map k | k in s2.children :: ValueOf(s2.children[k])
    ensures s1.ref.entries == map k | k in cur :: ValueOf(cur[k])
    ensures forall k | k in cur && k != key :: Good(cur[k]) && Refs(cur[k]) !! Written(s1, key)
    ensures forall k | k in todo :: Good(s2.children[k]) && Refs(s2.children[k]) !! Written(s1, key)
    ensures s2.ref !in Written(s1, key)
  {
    hide Good, Separate, Stored, Abs, ValueOf, ValuesOf, MergeValues, MergeMaps, Zone, Fields, Below, Refs;
    OthersApart(s1, s2, cur, todo, key);
  }

  lemma MergeEnd(s1: Shape, s2: Shape, cur: map<string, Shape>)
    requires Mergeable(s1, s2) && Merging(s1, s2, cur, {})
    ensures var r := Node(s1.ref, cur);
      && Good(r) && Refs(r) <= Refs(s1) + Refs(s2)
      && MergeMaps(Fields(s1), Fields(s2)) == Some(Fields(r))
  {
    ProgressEnd(s1, s2, cur);
  }

  method MergeMapsRecursive(map1: MapNode, map2: MapNode, ghost s1: Shape, ghost s2: Shape) returns (ghost merged: Shape)
    requires Good(s1) && s1.Node? && s1.ref == map1
    requires Good(s2) && s2.Node? && s2.ref == map2
    requires Refs(s1) !! Refs(s2)
    requires MergeMaps(Fields(s1), Fields(s2)).Some?
    modifies Refs(s1)
    ensures Good(merged) && merged.Node? && merged.ref == map1
    ensures Refs(merged) <= Refs(s1) + Refs(s2)
    ensures MergeMaps(Fields(s1), Fields(s2)) == Some(Fields(merged))
    decreases s2, 0
  {
    hide Good, Separate, Stored, Abs, ValueOf, ValuesOf, MergeValues, MergeMaps, Progress, Zone, Fields, Below, Written,
      Mergeable, Merging;
    ghost var cur := s1.children;
    MergeStart(s1, s2);
    var todo := map2.entries.Keys;
    while todo != {}
      invariant todo <= s2.children.Keys && Merging(s1, s2, cur, todo)
      decreases todo
    {
      var key :| key in todo;
      MergeStepReady(s1, s2, cur, todo, key);
      MergingParts(s1, s2, cur, todo, key);
      label before:
      ghost var c := MergeEntry(map1, key, map2.entries[key],
                                if key in s1.children then s1.children[key] else Shape.Leaf(""), s2.children[key]);
      forall k | k in cur && k != key ensures Good(cur[k]) {
        assert old@before(Good(cur[k])) && old@before(allocated(cur[k]) && allocated(Refs(cur[k])));
      }
      forall k | k in todo ensures Good(s2.children[k]) {
        assert old@before(Good(s2.children[k])) && old@before(allocated(s2.children[k]) && allocated(Refs(s2.children[k])));
      }
      MergeStepDone(s1, s2, cur, todo, key, c);
      cur := cur[key := c];
      todo := todo - {key};
    }
    merged := Node(map1, cur);
    MergeEnd(s1, s2, cur);
  }

  /** A fresh map for one pair; null when a name follows an array or map part. */
  method BuildParamStructure(key: string, parts: seq<KeyPart>, value: string) returns (params: MapNode?, ghost s: Shape)
    ensures Asm.BuildParamStructure(key, parts, value) ==
      if params == null then None else if s.Node? then Some(Fields(s)) else None
    ensures params != null ==> s.Node? && s.ref == params && Good(s) && fresh(Refs(s)) && s.children.Keys == {key}
    decreases |parts|
  {
    hide Good, Separate, Stored, Abs, ValueOf, ValuesOf, Fields, Asm.BuildParamStructure;
    BuildCases(key, parts, value);
    LeafGood(value);
    s := Shape.Leaf("");
    params := new MapNode();
    if |parts| == 0 {
      params.entries := map[key := Text(value)];
      s := SingleEntry(params, key, Shape.Leaf(value));
      return;
    }
    var part := parts[0];
    if part.RawPart? {
      return null, s;
    }
    var subKey := if part.ArrayPart? then "dummy" else part.content;
    var sub, sc := BuildParamStructure(subKey, parts[1..], value);
    if sub == null {
      return null, s;
    }
    FieldsAt(sc);
    s := HangBelow(params, key, part, sub, subKey, sc);
  }

  /** Makes the structure of the later parts the only entry of `params`: as the item of an array, or as a map. */
  method HangBelow(params: MapNode, key: string, part: KeyPart, sub: MapNode, subKey: string, ghost sc: Shape)
      returns (ghost s: Shape)
    requires sc.Node? && sc.ref == sub && Good(sc) && params !in Refs(sc) && sc.children.Keys == {subKey}
    modifies params
    ensures s.Node? && s.ref == params && Good(s) && Refs(s) <= {params} + Refs(sc) && s.children.Keys == {key}
    ensures Fields(s) == map[key := if part.ArrayPart? then Arr([Fields(sc)[subKey]]) else Obj(Fields(sc))]
  {
    hide Good, Separate, Stored, Abs, ValueOf, ValuesOf, Fields;
    FieldsAt(sc);
    ChildrenGood(sc);
    NodeView(sc);
    if part.ArrayPart? {
      params.entries := map[key := List([sub.entries[subKey]])];
      OneItem(sc.children[subKey]);
      s := SingleEntry(params, key, Items([sc.children[subKey]]));
    } else {
      params.entries := map[key := Table(sub)];
      s := SingleEntry(params, key, sc);
    }
  }

  lemma LeafGood(text: string)
    ensures Good(Shape.Leaf(text)) && Refs(Shape.Leaf(text)) == {}
    ensures ValueOf(Shape.Leaf(text)) == Text(text) && Abs(Shape.Leaf(text)) == Str(text)
  {
  }

  lemma BuildCases(key: string, parts: seq<KeyPart>, value: string)
    ensures var r := Asm.BuildParamStructure(key, parts, value);
      if parts == [] then r == Some(map[key := Str(value)])
      else
        match parts[0]
        case ArrayPart =>
          (match Asm.BuildParamStructure("dummy", parts[1..], value)
           case None => r == None
           case Some(sub) => r == Some(map[key := Arr([if "dummy" in sub then sub["dummy"] else Null])]))
        case MapPart(content) =>
          (match Asm.BuildParamStructure(content, parts[1..], value)
           case None => r == None
           case Some(sub) => r == Some(map[key := Obj(sub)]))
        case RawPart(_) => r == None
  {
  }

  lemma OneItem(c: Shape)
    requires Good(c)
    ensures Good(Items([c])) && Refs(Items([c])) == Refs(c) && ValueOf(Items([c])) == List([ValueOf(c)])
    ensures Abs(Items([c])) == Arr([Abs(c)])
  {
    assert [c][0] == c;
    RefsOfItem([c], 0);
    assert ValuesOf([c]) == [ValueOf(c)];
  }

  lemma SingleEntry(params: MapNode, key: string, c: Shape) returns (s: Shape)
    requires params.entries == map[key := ValueOf(c)] && Good(c) && params !in Refs(c)
    ensures s == Node(params, map[key := c]) && Good(s) && Refs(s) == {params} + Refs(c)
    ensures Fields(s) == map[key := Abs(c)]
  {
    s := Node(params, map[key := c]);
    assert s.children[key] == c;
    RefsOfChildren(s);
  }

  datatype Status = Done | BadKey(key: string) | Mixed

  /** One pair: its structure is merged into the map object in place. */
  method AssemblePair(params: MapNode, pair: Pair, ghost s: Shape, ghost rest: seq<Pair>) returns (status: Status, ghost r: Shape)
    requires s.Node? && s.ref == params && Good(s) && ArraysNonEmpty(Obj(Fields(s)))
    modifies Refs(s)
    ensures r.Node? && r.ref == params && Good(r) && fresh(Refs(r) - Refs(s))
    ensures var outcome := AssembleFrom(Fields(s), [pair] + rest);
      match status
      case Done => ArraysNonEmpty(Obj(Fields(r))) && outcome == AssembleFrom(Fields(r), rest)
      case BadKey(key) => outcome == InvalidKey(key)
      case Mixed => outcome == MixedKey
  {
    hide Good, Separate, Stored, Abs, ValueOf, ValuesOf, Fields, MergeMaps, MergeValues, Parse, Brackets,
      AssembleFrom, Asm.BuildParamStructure, ArraysNonEmpty;
    assert allocated(s) && allocated(Refs(s));
    AssembleStep(Fields(s), [pair] + rest);
    assert ([pair] + rest)[1..] == rest;
    r := s;
    status := Done;
    var keyParts := ParseKey(pair.key);
    if |keyParts| == 0 {
      return;
    }
    if !keyParts[0].RawPart? {
      status := BadKey(pair.key);
      return;
    }
    var pairParams, ps := BuildParamStructure(keyParts[0].content, keyParts[1..], pair.value);
    if pairParams == null {
      status := Mixed;
      return;
    }
    r := MergeMapsRecursive(params, pairParams, s, ps);
  }

  lemma EmptyNode(ref: MapNode)
    requires ref.entries == map[]
    ensures var s := Node(ref, map[]);
      Good(s) && Refs(s) == {ref} && Fields(s) == map[]
  {
  }

  /**
   * The whole assembly: every pair's structure is merged into one map object in place. It ends as the
   * function of module Assembler says, which never panics.
   */
  method AssembleParams(form: seq<Pair>) returns (status: Status, params: MapNode, ghost s: Shape)
    ensures s.Node? && s.ref == params && Good(s) && fresh(Refs(s))
    ensures match Assemble(form)
      case Params(p) => status == Done && Fields(s) == p
      case InvalidKey(key) => status == BadKey(key)
      case MixedKey => status == Mixed
      case Panicked => false
  {
    hide Good, Separate, Stored, Refs, Abs, ValueOf, ValuesOf, Fields, MergeMaps, MergeValues, Assemble, AssembleFrom,
      ArraysNonEmpty;
    params := new MapNode();
    s := Node(params, map[]);
    EmptyNode(params);
    status := Done;
    AssembleStart(form);
    assert form[0..] == form;
    for i := 0 to |form|
      invariant s.Node? && s.ref == params && Good(s) && fresh(Refs(s)) && ArraysNonEmpty(Obj(Fields(s)))
      invariant status == Done && Assemble(form) == AssembleFrom(Fields(s), form[i..])
    {
      assert [form[i]] + form[i + 1..] == form[i..];
      ghost var before := Refs(s);
      assert fresh(before);
      label Before:
      status, s := AssemblePair(params, form[i], s, form[i + 1..]);
      forall m | m in Refs(s) ensures fresh(m) {
        if m !in before {
          assert m in Refs(s) - before;
          assert !old@Before(allocated(m));
        }
      }
      if status != Done {
        return;
      }
    }
    AssembleEnd(Fields(s), form[|form|..]);
  }

  lemma AssembleStart(form: seq<Pair>)
    ensures Assemble(form) == AssembleFrom(map[], form) && ArraysNonEmpty(Obj(map[]))
  {
  }

  lemma AssembleEnd(params: map<string, Json>, form: seq<Pair>)
    requires form == []
    ensures AssembleFrom(params, form) == Params(params)
  {
  }

  /** One round of the assembly loop. */
  lemma AssembleStep(params: map<string, Json>, form: seq<Pair>)
    requires form != [] && ArraysNonEmpty(Obj(params))
    ensures var r, parts := AssembleFrom(params, form), Parse(form[0].key);
      if parts == [] then r == AssembleFrom(params, form[1..])
      else if !parts[0].RawPart? then r == InvalidKey(form[0].key)
      else
        match Asm.BuildParamStructure(parts[0].content, parts[1..], form[0].value)
        case None => r == MixedKey
        case Some(p) =>
          && MergeMaps(params, p).Some?
          && ArraysNonEmpty(Obj(MergeMaps(params, p).value))
          && r == AssembleFrom(MergeMaps(params, p).value, form[1..])
  {
    var parts := Parse(form[0].key);
    if parts != [] && parts[0].RawPart?
       && Asm.BuildParamStructure(parts[0].content, parts[1..], form[0].value).Some? {
      MergeIsDefined(params, parts[0].content, parts[1..], form[0].value);
    }
  }

  lemma MergeIsDefined(m: map<string, Json>, key: string, path: seq<KeyPart>, v: string)
    requires ArraysNonEmpty(Obj(m)) && Asm.BuildParamStructure(key, path, v).Some?
    ensures var r := MergeMaps(m, Asm.BuildParamStructure(key, path, v).value);
      r.Some? && ArraysNonEmpty(Obj(r.value))
  {
    BuildIsPut(key, path, v);
    MergeKeyIsPut(m, key, path, v);
    PutKeepsArraysNonEmpty(Lookup(m, key), path, v);
  }
}
