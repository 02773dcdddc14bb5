/** Assembling form pairs into nested parameters. */
module Assembler {
  import opened Json
  import opened KeyParser

  datatype Pair = Pair(key: string, value: string)

  datatype Outcome =
    | Params(params: map<string, Json>)
    | InvalidKey(key: string)
    | MixedKey
    | Panicked

  /** The nested parameter one key stands for; None when a name follows an array or map part. */
  function BuildParamStructure(key: string, parts: seq<KeyPart>, value: string): Option<map<string, Json>>
    decreases |parts|
  {
    if parts == [] then Some(map[key := Str(value)])
    else
      match parts[0]
      case ArrayPart =>
        (match BuildParamStructure("dummy", parts[1..], value)
         case None => None
         case Some(sub) => Some(map[key := Arr([if "dummy" in sub then sub["dummy"] else Null])]))
      case MapPart(content) =>
        (match BuildParamStructure(content, parts[1..], value)
         case None => None
         case Some(sub) => Some(map[key := Obj(sub)]))
      case RawPart(_) => None
  }

  predicate IsContainer(v: Json) {
    v.Arr? || v.Obj?
  }

  datatype Collapse = Panics | Separate | Merged(arr: seq<Json>)

  /**
   * Whether the only element of `arr2` extends the last element of `arr1`: both must be maps, and no key
   * of the former may hold a scalar in the latter.
   */
  function MaybeCollapseArrays(arr1: seq<Json>, arr2: seq<Json>): Collapse
    decreases Arr(arr2), 0
  {
    if |arr2| != 1 || arr1 == [] then Panics
    else
      match (arr1[|arr1| - 1], arr2[0])
      case (Obj(map1), Obj(map2)) =>
        if exists key | key in map2 :: key in map1 && !IsContainer(map1[key]) then Separate
        else (match MergeMaps(map1, map2)
              case None => Panics
              case Some(merged) => Merged(arr1[|arr1| - 1 := Obj(merged)]))
      case _ => Separate
  }

  /** The value a key gets when `val2` is merged over `val1`; None when the code would panic. */
  function MergeValues(val1: Json, val2: Json): Option<Json>
    decreases val2, 1
  {
    match (val1, val2)
    case (Obj(map1), Obj(map2)) =>
      (match MergeMaps(map1, map2)
       case None => None
       case Some(merged) => Some(Obj(merged)))
    case (Arr(arr1), Arr(arr2)) =>
      (match MaybeCollapseArrays(arr1, arr2)
       case Panics => None
       case Separate => Some(Arr(arr1 + arr2))
       case Merged(arr) => Some(Arr(arr)))
    case _ => Some(val2)
  }

  function MergeMaps(map1: map<string, Json>, map2: map<string, Json>): Option<map<string, Json>>
    decreases Obj(map2), 0
  {
    if forall key | key in map2 && key in map1 :: MergeValues(map1[key], map2[key]).Some? then
      Some(map key | key in map1.Keys + map2.Keys ::
        if key !in map2 then map1[key]
        else if key !in map1 then map2[key]
        else MergeValues(map1[key], map2[key]).value)
    else None
  }

  function AssembleFrom(params: map<string, Json>, form: seq<Pair>): Outcome
    decreases |form|
  {
    if form == [] then Params(params)
    else
      var parts := Parse(form[0].key);
      if parts == [] then AssembleFrom(params, form[1..])
      else if !parts[0].RawPart? then InvalidKey(form[0].key)
      else
        match BuildParamStructure(parts[0].content, parts[1..], form[0].value)
        case None => MixedKey
        case Some(pairParams) =>
          match MergeMaps(params, pairParams)
          case None => Panicked
          case Some(merged) => AssembleFrom(merged, form[1..])
  }

  function Assemble(form: seq<Pair>): Outcome {
    AssembleFrom(map[], form)
  }

  // What one pair does to the place its path leads to.

  function Lookup(m: map<string, Json>, key: string): Option<Json> {
    if key in m then Some(m[key]) else None
  }

  /** The fields of the object in a slot; none if there is no object. */
  function FieldsAt(slot: Option<Json>): map<string, Json> {
    if slot.Some? && slot.value.Obj? then slot.value.fields else map[]
  }

  /** Whether a pair with the rest of its path in `path` goes into the array element `last`. */
  predicate Extends(last: Json, path: seq<KeyPart>) {
    && path != []
    && path[0].MapPart?
    && last.Obj?
    && (path[0].content in last.fields ==> IsContainer(last.fields[path[0].content]))
  }

  /** The value at a place (None: nothing there yet) after the pair `path=v` has been merged into it. */
  function Put(slot: Option<Json>, path: seq<KeyPart>, v: string): Json
    decreases |path|
  {
    if path == [] then Str(v)
    else
      match path[0]
      case MapPart(key) =>
        var m := if slot.Some? && slot.value.Obj? then slot.value.fields else map[];
        Obj(m[key := Put(Lookup(m, key), path[1..], v)])
      case ArrayPart =>
        var a := if slot.Some? && slot.value.Arr? then slot.value.items else [];
        if a != [] && Extends(a[|a| - 1], path[1..]) then
          Arr(a[|a| - 1 := Put(Some(a[|a| - 1]), path[1..], v)])
        else Arr(a + [Put(None, path[1..], v)])
      case RawPart(_) => Str(v)
  }

  predicate NoName(path: seq<KeyPart>) {
    forall p | p in path :: !p.RawPart?
  }

  lemma PutFreshArray(path: seq<KeyPart>, v: string)
    requires path != [] && path[0].ArrayPart?
    ensures Put(None, path, v) == Arr([Put(None, path[1..], v)])
  {
    var w := Put(None, path[1..], v);
    assert [] + [w] == [w];
  }

  lemma {:induction false} BuildIsPut(key: string, path: seq<KeyPart>, v: string)
    ensures BuildParamStructure(key, path, v) == if NoName(path) then Some(map[key := Put(None, path, v)]) else None
    decreases |path|
  {
    if path != [] {
      assert NoName(path) <==> !path[0].RawPart? && NoName(path[1..]);
      match path[0]
      case ArrayPart =>
        BuildIsPut("dummy", path[1..], v);
        PutFreshArray(path, v);
      case MapPart(content) => BuildIsPut(content, path[1..], v);
      case RawPart(_) =>
    }
  }

  /** Every array has an element, here and below. */
  predicate ArraysNonEmpty(v: Json) {
    match v
    case Arr(items) => items != [] && forall i | 0 <= i < |items| :: ArraysNonEmpty(items[i])
    case Obj(m) => forall k | k in m :: ArraysNonEmpty(m[k])
    case _ => true
  }

  lemma {:induction false} PutKeepsArraysNonEmpty(slot: Option<Json>, path: seq<KeyPart>, v: string)
    requires slot.Some? ==> ArraysNonEmpty(slot.value)
    ensures ArraysNonEmpty(Put(slot, path, v))
    decreases |path|
  {
    if path != [] {
      match path[0]
      case MapPart(key) =>
        var m := if slot.Some? && slot.value.Obj? then slot.value.fields else map[];
        PutKeepsArraysNonEmpty(Lookup(m, key), path[1..], v);
      case ArrayPart =>
        var a := if slot.Some? && slot.value.Arr? then slot.value.items else [];
        PutKeepsArraysNonEmpty(None, path[1..], v);
        if a != [] {
          PutKeepsArraysNonEmpty(Some(a[|a| - 1]), path[1..], v);
        }
      case RawPart(_) =>
    }
  }

  lemma MergeOneKey(m: map<string, Json>, key: string, w: Json)
    ensures MergeMaps(m, map[key := w]) ==
      if key !in m then Some(m[key := w])
      else match MergeValues(m[key], w) case None => None case Some(u) => Some(m[key := u])
  {
    var m2 := map[key := w];
    assert m2[key] == w;
    assert m.Keys + m2.Keys == m.Keys + {key};
    if key in m && MergeValues(m[key], w).Some? {
      var r := MergeMaps(m, m2).value;
      assert r == m[key := MergeValues(m[key], w).value];
    } else if key !in m {
      assert MergeMaps(m, m2).value == m[key := w];
    }
  }

  /** Merging the structure of one pair is putting its value: no step of it panics. */
  lemma {:induction false} MergeIsPut(slot: Json, path: seq<KeyPart>, v: string)
    requires ArraysNonEmpty(slot) && NoName(path)
    ensures MergeValues(slot, Put(None, path, v)) == Some(Put(Some(slot), path, v))
    decreases |path|, 0
  {
    if path != [] {
      assert path[0] in path && forall p | p in path[1..] :: p in path;
      if path[0].ArrayPart? {
        PutFreshArray(path, v);
        if slot.Arr? {
          CollapseIsPut(slot.items, path[1..], v);
        }
      } else if slot.Obj? {
        MergeKeyIsPut(slot.fields, path[0].content, path[1..], v);
      }
    }
  }

  lemma {:induction false} CollapseIsPut(items: seq<Json>, path: seq<KeyPart>, v: string)
    requires items != [] && ArraysNonEmpty(items[|items| - 1]) && NoName(path)
    ensures MaybeCollapseArrays(items, [Put(None, path, v)]) ==
      var last := items[|items| - 1];
      if Extends(last, path) then Merged(items[|items| - 1 := Put(Some(last), path, v)]) else Separate
    decreases |path|, 0
  {
    var last := items[|items| - 1];
    if path != [] && path[0].MapPart? && last.Obj? {
      var key, more := path[0].content, path[1..];
      assert forall p | p in more :: p in path;
      MergeKeyIsPut(last.fields, key, more, v);
      var map2 := map[key := Put(None, more, v)];
      assert Put(None, path, v) == Obj(map2);
      assert key in map2;
    } else if path != [] {
      assert path[0] in path;
    }
  }

  lemma {:induction false} MergeKeyIsPut(m: map<string, Json>, key: string, path: seq<KeyPart>, v: string)
    requires ArraysNonEmpty(Obj(m)) && NoName(path)
    ensures MergeMaps(m, map[key := Put(None, path, v)]) == Some(m[key := Put(Lookup(m, key), path, v)])
    decreases |path|, 1
  {
    MergeOneKey(m, key, Put(None, path, v));
    if key in m {
      MergeIsPut(m[key], path, v);
    }
  }

  // The whole form.

  /** A pair whose key was accepted: where it goes, the name included, and its value. */
  datatype Leaf = Leaf(path: seq<KeyPart>, value: string)

  /** Keys with no part at all are skipped; any other key must be a name and then array and map parts. */
  predicate Accepted(key: string) {
    var parts := Parse(key);
    parts == [] || (parts[0].RawPart? && NoName(parts[1..]))
  }

  function Leaves(form: seq<Pair>): seq<Leaf> {
    if form == [] then []
    else
      var parts := Parse(form[0].key);
      if parts == [] || !parts[0].RawPart? then Leaves(form[1..])
      else [Leaf([MapPart(parts[0].content)] + parts[1..], form[0].value)] + Leaves(form[1..])
  }

  function PutAll(slot: Option<Json>, leaves: seq<Leaf>): Option<Json>
    decreases |leaves|
  {
    if leaves == [] then slot
    else PutAll(Some(Put(slot, leaves[0].path, leaves[0].value)), leaves[1..])
  }

  /**
   * What assembly computes, for every form: the accepted pairs are put one after another, the first
   * key that is not acceptable makes it fail, and it never panics.
   */
  lemma {:induction false} AssembleIsPutAll(params: map<string, Json>, form: seq<Pair>)
    requires ArraysNonEmpty(Obj(params))
    ensures var r := AssembleFrom(params, form);
      && !r.Panicked?
      && (r.Params? <==> forall p | p in form :: Accepted(p.key))
      && (r.Params? ==> ArraysNonEmpty(Obj(r.params)) && PutAll(Some(Obj(params)), Leaves(form)) == Some(Obj(r.params)))
    decreases |form|
  {
    if form != [] {
      assert forall p | p in form :: p == form[0] || p in form[1..];
      assert forall p | p in form[1..] :: p in form;
      assert form[0] in form;
      var parts, v := Parse(form[0].key), form[0].value;
      if parts == [] {
        AssembleIsPutAll(params, form[1..]);
      } else if parts[0].RawPart? {
        var name, path := parts[0].content, parts[1..];
        BuildIsPut(name, path, v);
        if NoName(path) {
          MergeKeyIsPut(params, name, path, v);
          var whole := [MapPart(name)] + path;
          assert whole[1..] == path;
          PutKeepsArraysNonEmpty(Some(Obj(params)), whole, v);
          var next := Put(Some(Obj(params)), whole, v);
          AssembleIsPutAll(next.fields, form[1..]);
          assert Leaves(form)[1..] == Leaves(form[1..]);
        }
      }
    }
  }

  /** No list of pairs makes assembly panic; it succeeds exactly when every key is acceptable. */
  lemma AssembleNeverPanics(form: seq<Pair>)
    ensures !Assemble(form).Panicked?
    ensures Assemble(form).Params? <==> forall p | p in form :: Accepted(p.key)
    ensures Assemble(form).Params? ==>
      && ArraysNonEmpty(Obj(Assemble(form).params))
      && PutAll(Some(Obj(map[])), Leaves(form)) == Some(Obj(Assemble(form).params))
  {
    AssembleIsPutAll(map[], form);
  }
}
