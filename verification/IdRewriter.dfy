/** The two passes as they run: loops over lists and, in any order, over maps. */
module IdRewriter {
  import opened Json
  import opened IdLaws
  import opened IdRewriting

  /** The ids from the path and, separately, what they have replaced. */
  class PathParamsMap {
    const ids: PathParams
    var replacedPrimary: Option<string>
    var replaced: seq<seq<string>>

    constructor (ids: PathParams)
      ensures this.ids == ids && Valid() && Value() == ids
    {
      this.ids := ids;
      replacedPrimary := ids.replacedPrimary;
      replaced := seq(|ids.secondary|, i requires 0 <= i < |ids.secondary| => ids.secondary[i].replaced);
    }

    ghost predicate Valid()
      reads this
    {
      |replaced| == |ids.secondary|
    }

    function Value(): PathParams
      requires Valid()
      reads this
    {
      PathParams(ids.primary, replacedPrimary,
                 seq(|ids.secondary|, i requires 0 <= i < |ids.secondary| reads this requires Valid() => ids.secondary[i].(replaced := replaced[i])))
    }

    method AppendReplaced(i: nat, s: string)
      requires Valid() && i < |replaced|
      modifies this`replaced
      ensures Valid() && replaced == if s == "" then old(replaced) else old(replaced)[i := old(replaced)[i] + [s]]
    {
      if s != "" {
        replaced := replaced[i := replaced[i] + [s]];
      }
    }

    /** Puts the ids of the path into the data and records what they replace. */
    method RecordAndReplace(data: Json, parentKey: Option<string>, level: nat) returns (out: Json)
      requires Valid() && Named(ids.secondary, "object").None?
      modifies this`replacedPrimary, this`replaced
      ensures Valid() && out == Record(ids, data, parentKey, level)
      ensures replacedPrimary == if level == 0 then OldPrimary(ids.(replacedPrimary := old(replacedPrimary)), data) else old(replacedPrimary)
      ensures forall i: nat, x | i < |replaced| :: x in replaced[i] <==> x in old(replaced)[i] || WasReplaced(ids, data, parentKey, level, i, x)
      decreases data, 2
    {
      match data
      case Arr(items) => out := RecordItems(items, level);
      case Obj(m) => out := RecordFields(m, parentKey, level);
      case _ => out := data;
    }

    method RecordItems(items: seq<Json>, level: nat) returns (out: Json)
      requires Valid() && Named(ids.secondary, "object").None?
      modifies this`replacedPrimary, this`replaced
      ensures Valid() && out == Record(ids, Arr(items), None, level) && replacedPrimary == old(replacedPrimary)
      ensures forall i: nat, x | i < |replaced| ::
        x in replaced[i] <==> x in old(replaced)[i] || exists j | 0 <= j < |items| :: WasReplaced(ids, items[j], None, level + 1, i, x)
      decreases Arr(items), 0
    {
      hide WasReplaced;
      var after := [];
      for n := 0 to |items|
        invariant Valid() && replacedPrimary == old(replacedPrimary)
        invariant |after| == n && forall j | 0 <= j < n :: after[j] == Record(ids, items[j], None, level + 1)
        invariant forall i: nat, x | i < |replaced| ::
          x in replaced[i] <==> x in old(replaced)[i] || exists j | 0 <= j < n :: WasReplaced(ids, items[j], None, level + 1, i, x)
      {
        var item := RecordAndReplace(items[n], None, level + 1);
        after := after + [item];
      }
      out := Arr(after);
      assert after == Record(ids, Arr(items), None, level).items;
    }

    /** Whether the field `k` records `x` for the secondary id number `i`. */
    ghost predicate FieldReplaces(m: map<string, Json>, k: string, parentKey: Option<string>, level: nat, i: nat, x: string)
      requires k in m
    {
      if m[k].Str? then m[k].s == x != "" && Replaces(ids, m, k, parentKey, level, i) else WasReplaced(ids, m[k], Some(k), level + 1, i, x)
    }

    /** Below the top, an object or its parent has the name of the secondary id number `i`. */
    predicate Names(objectVal: Option<string>, parentKey: Option<string>, level: nat, i: nat) {
      level > 0 && (NamedBy(ids.secondary, objectVal) == Some(i) || NamedBy(ids.secondary, parentKey) == Some(i))
    }

    /** The id of an object: replaced by the primary id at the top, else by the id its `object` or its parent names. */
    method ReplaceId(val: string, objectVal: Option<string>, parentKey: Option<string>, level: nat) returns (id: string)
      requires Valid()
      modifies this`replacedPrimary, this`replaced
      ensures Valid() && id == RecordId(ids, val, objectVal, parentKey, level)
      ensures replacedPrimary == if level == 0 && ids.primary.Some? then Some(val) else old(replacedPrimary)
      ensures forall i: nat, x | i < |replaced| ::
        x in replaced[i] <==> x in old(replaced)[i] || (x == val != "" && Names(objectVal, parentKey, level, i))
    {
      hide Named;
      id := val;
      if level == 0 {
        if ids.primary.Some? {
          replacedPrimary := Some(val);
          id := ids.primary.value;
        }
        return;
      }
      var byObject := NamedBy(ids.secondary, objectVal);
      if byObject.Some? {
        AppendReplaced(byObject.value, val);
        id := ids.secondary[byObject.value].id;
      }
      var byParent := NamedBy(ids.secondary, parentKey);
      if byParent.Some? {
        AppendReplaced(byParent.value, val);
        id := ids.secondary[byParent.value].id;
      }
    }

    /** A string field, replaced if it has the name of a path parameter. */
    method ReplaceField(val: string, key: string) returns (s: string)
      requires Valid()
      modifies this`replaced
      ensures Valid() && s == RecordField(ids, val, key)
      ensures forall i: nat, x | i < |replaced| ::
        x in replaced[i] <==> x in old(replaced)[i] || (x == val != "" && Named(ids.secondary, key) == Some(i))
    {
      hide Named;
      s := val;
      var named := Named(ids.secondary, key);
      if named.Some? {
        AppendReplaced(named.value, val);
        s := ids.secondary[named.value].id;
      }
    }

    lemma IdReplaces(m: map<string, Json>, val: string, parentKey: Option<string>, level: nat)
      requires "id" in m && m["id"] == Str(val)
      ensures forall i: nat, x :: FieldReplaces(m, "id", parentKey, level, i, x) <==>
        (x == val != "" && Names(ObjectField(m), parentKey, level, i))
    {
      hide Named;
    }

    lemma FieldIsReplaced(m: map<string, Json>, key: string, parentKey: Option<string>, level: nat)
      requires key in m && m[key].Str? && key != "id"
      ensures forall i: nat, x :: FieldReplaces(m, key, parentKey, level, i, x) <==> (x == m[key].s != "" && Named(ids.secondary, key) == Some(i))
    {
      hide Named;
    }

    /** One field of a map; `objectVal` is what its `object` field holds. */
    method RecordOne(m: map<string, Json>, key: string, objectVal: Option<string>, parentKey: Option<string>, level: nat)
        returns (field: Json)
      requires Valid() && Named(ids.secondary, "object").None? && key in m && objectVal == ObjectField(m)
      modifies this`replacedPrimary, this`replaced
      ensures Valid() && field == RecordedField(ids, m, key, parentKey, level)
      ensures key == "object" ==> (if field.Str? then Some(field.s) else None) == ObjectField(m)
      ensures replacedPrimary ==
        if level == 0 && key == "id" then OldPrimary(ids.(replacedPrimary := old(replacedPrimary)), Obj(m)) else old(replacedPrimary)
      ensures forall i: nat, x | i < |replaced| ::
        x in replaced[i] <==> x in old(replaced)[i] || FieldReplaces(m, key, parentKey, level, i, x)
      decreases Obj(m), 0
    {
      hide WasReplaced, FieldReplaces, Replaces, RecordId, RecordField;
      var val := m[key];
      ObjectFieldStays(val, level);
      if key == "id" && val.Str? {
        var id := ReplaceId(val.s, objectVal, parentKey, level);
        IdReplaces(m, val.s, parentKey, level);
        field := Str(id);
      } else if val.Str? {
        var s := ReplaceField(val.s, key);
        FieldIsReplaced(m, key, parentKey, level);
        field := Str(s);
      } else {
        field := RecordAndReplace(val, Some(key), level + 1);
        PartReplaces(m, key, parentKey, level);
      }
    }

    method RecordFields(m: map<string, Json>, parentKey: Option<string>, level: nat) returns (out: Json)
      requires Valid() && Named(ids.secondary, "object").None?
      modifies this`replacedPrimary, this`replaced
      ensures Valid() && out == Record(ids, Obj(m), parentKey, level)
      ensures replacedPrimary ==
        if level == 0 then OldPrimary(ids.(replacedPrimary := old(replacedPrimary)), Obj(m)) else old(replacedPrimary)
      ensures forall i: nat, x | i < |replaced| ::
        x in replaced[i] <==> x in old(replaced)[i] || exists k | k in m :: FieldReplaces(m, k, parentKey, level, i, x)
      decreases Obj(m), 1
    {
      hide WasReplaced, FieldReplaces, RecordedField;
      var current, rest := m, m.Keys;
      while rest != {}
        invariant Valid() && rest <= m.Keys && current.Keys == m.Keys
        invariant forall k | k in rest :: current[k] == m[k]
        invariant forall k | k in m.Keys - rest :: current[k] == RecordedField(ids, m, k, parentKey, level)
        invariant ObjectField(current) == ObjectField(m)
        invariant replacedPrimary ==
          if level == 0 && "id" !in rest then OldPrimary(ids.(replacedPrimary := old(replacedPrimary)), Obj(m)) else old(replacedPrimary)
        invariant forall i: nat, x | i < |replaced| ::
          x in replaced[i] <==> x in old(replaced)[i] || exists k | k in m.Keys - rest :: FieldReplaces(m, k, parentKey, level, i, x)
        decreases Obj(m), 1, rest
      {
        var key :| key in rest;
        rest := rest - {key};
        var field := RecordOne(m, key, ObjectField(current), parentKey, level);
        current := current[key := field];
        assert m.Keys - rest == (m.Keys - rest - {key}) + {key};
      }
      assert m.Keys - rest == m.Keys;
      out := Obj(current);
      AllFieldsRecorded(m, current, parentKey, level);
    }

    lemma ObjectFieldStays(val: Json, level: nat)
      requires Named(ids.secondary, "object").None?
      ensures val.Str? ==> RecordField(ids, val.s, "object") == val.s
      ensures !val.Str? ==> !Record(ids, val, Some("object"), level + 1).Str?
    {
    }

    lemma PartReplaces(m: map<string, Json>, key: string, parentKey: Option<string>, level: nat)
      requires key in m && !m[key].Str?
      ensures forall i: nat, x :: FieldReplaces(m, key, parentKey, level, i, x) <==> WasReplaced(ids, m[key], Some(key), level + 1, i, x)
    {
      hide WasReplaced;
    }

    lemma AllFieldsRecorded(m: map<string, Json>, current: map<string, Json>, parentKey: Option<string>, level: nat)
      requires current.Keys == m.Keys && forall k | k in m :: current[k] == RecordedField(ids, m, k, parentKey, level)
      ensures Obj(current) == Record(ids, Obj(m), parentKey, level)
    {
      hide RecordId, RecordField;
      assert current == Record(ids, Obj(m), parentKey, level).fields;
    }
  }

  function RecordedField(p: PathParams, m: map<string, Json>, k: string, parentKey: Option<string>, level: nat): Json
    requires k in m
  {
    if m[k].Str? then
      Str(if k == "id" then RecordId(p, m[k].s, ObjectField(m), parentKey, level) else RecordField(p, m[k].s, k))
    else Record(p, m[k], Some(k), level + 1)
  }

  /** Both passes over generated data. */
  method RewriteIDs(ids: PathParams, data: Json) returns (p: PathParams, out: Json)
    requires Named(ids.secondary, "object").None?
    ensures RecordedFrom(ids, data, p) && out == Distribute(p, Record(ids, data, None, 0))
  {
    hide Distribute, Record, WasReplaced, Named;
    var pathParams := new PathParamsMap(ids);
    assert forall i | 0 <= i < |ids.secondary| :: pathParams.replaced[i] == pathParams.Value().secondary[i].replaced;
    var first := pathParams.RecordAndReplace(data, None, 0);
    p := pathParams.Value();
    assert ids.(replacedPrimary := ids.replacedPrimary) == ids;
    out := DistributeReplacedIDs(p, first);
  }

  /** Replaces what is left of the recorded ids; strings directly in lists are left alone. */
  method DistributeReplacedIDs(p: PathParams, data: Json) returns (out: Json)
    ensures out == Distribute(p, data)
    decreases data, 1
  {
    match data
    case Arr(items) => out := DistributeItems(p, items);
    case Obj(m) => out := DistributeFields(p, m);
    case _ => out := data;
  }

  method DistributeItems(p: PathParams, items: seq<Json>) returns (out: Json)
    ensures out == Distribute(p, Arr(items))
    decreases Arr(items), 0
  {
    var after := [];
    for n := 0 to |items|
      invariant |after| == n && forall j | 0 <= j < n :: after[j] == Distribute(p, items[j])
    {
      var item := DistributeReplacedIDs(p, items[n]);
      after := after + [item];
    }
    out := Arr(after);
    assert after == Distribute(p, Arr(items)).items;
  }

  method DistributeFields(p: PathParams, m: map<string, Json>) returns (out: Json)
    ensures out == Distribute(p, Obj(m))
    decreases Obj(m), 0
  {
    hide InValue, InUrl;
    var current, rest := m, m.Keys;
    while rest != {}
      invariant rest <= m.Keys && current.Keys == m.Keys
      invariant forall k | k in rest :: current[k] == m[k]
      invariant forall k | k in m.Keys - rest ::
        current[k] == if m[k].Str? then Str(DistributeString(p, k, m[k].s)) else Distribute(p, m[k])
      decreases Obj(m), 0, rest
    {
      var key :| key in rest;
      rest := rest - {key};
      var value := current[key];
      if value.Str? && InValue(p, value.s).Some? {
        current := current[key := Str(InValue(p, value.s).value)];
        continue;
      }
      if key == "url" && value.Str? && InUrl(p, value.s).Some? {
        current := current[key := Str(InUrl(p, value.s).value)];
        continue;
      }
      var sub := DistributeReplacedIDs(p, value);
      current := current[key := sub];
    }
    out := Obj(current);
    assert current == Distribute(p, Obj(m)).fields;
  }
}
