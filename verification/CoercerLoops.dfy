/**
 * Coercion as it runs: one loop over the fields of a map or the items of a list, in any order the map gives
 * its keys. Whatever the order, the outcome is the one module Coercer specifies, if it specifies one.
 */
module CoercerLoops {
  import opened Json
  import opened OpenApi
  import opened Coercer
  import opened CoercerLaws
  import opened IndexedMaps

  /** A coercion that ran has the specified outcome, and where one is not specified, still leaves some value. */
  ghost predicate Meets(c: Coercion, spec: Coercion) {
    && (spec.Unspecified? || c == spec || (spec.Error? && spec.left.None? && c.Error? && c.ok == spec.ok))
    && (c.Done? || (c.Error? && c.left.Some?))
  }

  /** What is left of a map when the loop stops at `key`, after some other keys. */
  lemma StopsAt(m: map<string, Json>, cs: map<string, Coercion>, after: map<string, Json>, done: set<string>, key: string, sub: Coercion)
    requires cs.Keys <= m.Keys && after.Keys == m.Keys && done <= m.Keys && key in cs && key !in done
    requires forall k | k in m && k !in done :: after[k] == m[k]
    requires forall k | k in done :: if k in cs then cs[k].Unspecified? || (cs[k].Done? && after[k] == Kept(cs[k])) else after[k] == m[k]
    requires sub.Error? && Meets(sub, cs[key])
    ensures var left := LeftInMap(m, cs); left.Some? ==> left == Some(Obj(after[key := sub.left.value]))
  {
    var left := LeftInMap(m, cs);
    if left.Some? {
      if forall k | k in cs :: Leaves(cs[k], m[k]) {
        assert after[key := sub.left.value] == m;
      } else {
        var e :| e in cs && OnlyError(m, cs, e) && left == Some(Obj(m[e := cs[e].left.value]));
        assert key == e;
        assert after[key := sub.left.value] == m[e := cs[e].left.value];
      }
    }
  }

  /** Coerces the fields the schema names, one by one. */
  method CoerceParams(parse: FloatParser, s: Schema, data: map<string, Json>) returns (c: Coercion)
    ensures Meets(c, Coercer.CoerceParams(parse, s, data))
    decreases s, 4
  {
    hide Coercer.CoerceValue, LeftInMap;
    var after, rest := data, s.properties.Keys;
    while rest != {}
      invariant rest <= s.properties.Keys && after.Keys == data.Keys
      invariant forall k | k in data && k !in s.properties.Keys - rest :: after[k] == data[k]
      invariant forall k | k in data && k in s.properties.Keys - rest ::
        var d := Coercer.CoerceValue(parse, data[k], s.properties[k]); d.Unspecified? || (d.Done? && after[k] == Kept(d))
      decreases rest
    {
      var key :| key in rest;
      rest := rest - {key};
      if key !in data {
        continue;
      }
      var sub := CoerceValue(parse, after[key], s.properties[key]);
      if sub.Error? {
        ghost var cs := map k | k in data && k in s.properties :: Coercer.CoerceValue(parse, data[k], s.properties[k]);
        StopsAt(data, cs, after, data.Keys * (s.properties.Keys - rest - {key}), key, sub);
        return Error(true, Some(Obj(after[key := sub.left.value])));
      }
      if sub.Done? && sub.ok {
        after := after[key := sub.result];
      } else if sub.Done? {
        after := after[key := sub.inPlace];
      }
    }
    assert s.properties.Keys - rest == s.properties.Keys;
    c := Done(Obj(after), true, Obj(after));
    ghost var spec := Coercer.CoerceParams(parse, s, data);
    assert spec.Done? ==> after == spec.result.fields;
  }

  method CoerceValue(parse: FloatParser, v: Json, s: Schema) returns (c: Coercion)
    ensures Meets(c, Coercer.CoerceValue(parse, v, s))
    decreases s, 5
  {
    if s.properties == map[] {
      c := CoerceNonObject(parse, v, s);
    } else if v.Obj? {
      c := CoerceParams(parse, s, v.fields);
    } else {
      c := Done(v, false, Null);
    }
  }

  method CoerceNonObject(parse: FloatParser, v: Json, s: Schema) returns (c: Coercion)
    ensures Meets(c, Coercer.CoerceNonObject(parse, v, s))
    decreases s, 4
  {
    hide Coercer.CoerceFields, Coercer.CoerceAnyOf;
    if IsPrimitive(s) {
      if s.enumeration.Some? && CoercePrimitive(parse, v, "number").Some? {
        return Done(v, false, Null);
      }
      var r := CoercePrimitive(parse, v, s.kind);
      return if r.Some? then Done(v, true, r.value) else Done(v, false, Null);
    }
    var current := v;
    if s.additionalProperties.Some? && v.Obj? {
      c := CoerceFields(parse, v.fields, s.additionalProperties.value);
      if !c.Done? || c.ok {
        return;
      }
      current := c.inPlace;
    }
    c := CoerceAnyOf(parse, current, s);
  }

  /** Coerces every value of a map, one by one. */
  method CoerceFields(parse: FloatParser, m: map<string, Json>, item: Schema) returns (c: Coercion)
    ensures Meets(c, Coercer.CoerceFields(parse, m, item))
    decreases item, 6
  {
    hide Coercer.CoerceValue, Coercer.CoerceFields;
    var after, rest, allOk := m, m.Keys, true;
    while rest != {}
      invariant rest <= m.Keys && after.Keys == m.Keys
      invariant forall k | k in rest :: after[k] == m[k]
      invariant forall k | k in m.Keys - rest ::
        var d := Coercer.CoerceValue(parse, m[k], item); d.Unspecified? || (d.Done? && after[k] == Kept(d))
      invariant (forall k | k in m.Keys - rest :: Coercer.CoerceValue(parse, m[k], item).Done?) ==>
        (allOk <==> forall k | k in m.Keys - rest :: Fine(Coercer.CoerceValue(parse, m[k], item), m[k]))
      decreases rest
    {
      var key :| key in rest;
      rest := rest - {key};
      var sub := CoerceValue(parse, after[key], item);
      if sub.Error? {
        FieldsStop(parse, m, item, after, m.Keys - rest - {key}, key, sub);
        return Error(false, Some(Obj(after[key := sub.left.value])));
      }
      allOk := allOk && Fine(sub, m[key]);
      if sub.Done? && sub.ok {
        after := after[key := sub.result];
      } else if sub.Done? {
        after := after[key := sub.inPlace];
      }
    }
    assert m.Keys - rest == m.Keys;
    c := Done(Obj(after), allOk, Obj(after));
    FieldsEnd(parse, m, item, after, allOk);
  }

  lemma FieldsStop(parse: FloatParser, m: map<string, Json>, item: Schema, after: map<string, Json>, done: set<string>,
                   key: string, sub: Coercion)
    requires after.Keys == m.Keys && done <= m.Keys && key in m && key !in done
    requires forall k | k in m && k !in done :: after[k] == m[k]
    requires forall k | k in done ::
      var d := Coercer.CoerceValue(parse, m[k], item); d.Unspecified? || (d.Done? && after[k] == Kept(d))
    requires sub.Error? && Meets(sub, Coercer.CoerceValue(parse, m[key], item))
    ensures Meets(Error(false, Some(Obj(after[key := sub.left.value]))), Coercer.CoerceFields(parse, m, item))
  {
    hide Coercer.CoerceValue, LeftInMap;
    StopsAt(m, map k | k in m :: Coercer.CoerceValue(parse, m[k], item), after, done, key, sub);
  }

  lemma FieldsEnd(parse: FloatParser, m: map<string, Json>, item: Schema, after: map<string, Json>, allOk: bool)
    requires after.Keys == m.Keys
    requires forall k | k in m :: var d := Coercer.CoerceValue(parse, m[k], item); d.Unspecified? || (d.Done? && after[k] == Kept(d))
    requires (forall k | k in m :: Coercer.CoerceValue(parse, m[k], item).Done?) ==>
      (allOk <==> forall k | k in m :: Fine(Coercer.CoerceValue(parse, m[k], item), m[k]))
    ensures Meets(Done(Obj(after), allOk, Obj(after)), Coercer.CoerceFields(parse, m, item))
  {
    hide Coercer.CoerceValue, LeftInMap;
    var spec := Coercer.CoerceFields(parse, m, item);
    assert spec.Done? ==> after == spec.result.fields;
  }

  /** Tries the branches in order, each on what the one before has left. */
  method CoerceAnyOf(parse: FloatParser, v: Json, s: Schema) returns (c: Coercion)
    ensures Meets(c, Coercer.CoerceAnyOf(parse, v, s, 0))
    decreases s, 3
  {
    hide Coercer.CoerceValue, Coercer.CoerceArray;
    var current := v;
    ghost var spec := Coercer.CoerceAnyOf(parse, v, s, 0);
    for i := 0 to |s.anyOf|
      invariant spec.Unspecified? || spec == Coercer.CoerceAnyOf(parse, current, s, i)
    {
      c := CoerceValue(parse, current, s.anyOf[i]);
      if (c.Done? || c.Error?) && c.ok {
        return;
      }
      current := if c.Done? then c.inPlace else c.left.value;
    }
    c := CoerceArray(parse, current, s);
  }

  method CoerceArray(parse: FloatParser, v: Json, s: Schema) returns (c: Coercion)
    ensures Meets(c, Coercer.CoerceArray(parse, v, s))
    decreases s, 2
  {
    hide Coercer.CoerceItems, Coercer.CoerceValue, Coercer.Biggest, Coercer.AtIndex, Coercer.Index, Coercer.Collide;
    if s.kind != "array" {
      return Done(v, false, Null);
    }
    var tooLarge, isArr, valArr := AsList(v);
    if tooLarge {
      return Error(false, Some(v));
    }
    if s.items.None? || !isArr {
      return Done(v, isArr, if isArr then Arr(valArr) else Null);
    }
    var inPlace: seq<Json>;
    OneList(parse, valArr, s.items.value);
    c, inPlace := CoerceItems(parse, valArr, s.items.value);
    if v.Obj? {
      // The maps and lists in the new list are those of the map.
      var shared := map k | k in v.fields && Index(k).Some? && Index(k).value < |inPlace| :: inPlace[Index(k).value];
      ghost var m, spec := v.fields, Coercer.CoerceItems(parse, valArr, s.items.value);
      if !Collide(m.Keys) {
        SharedMap(m, inPlace, shared);
        if spec.Done? {
          SharedItems(parse, m, s.items.value, inPlace, shared);
        }
      }
      c := if c.Done? then Done(Obj(v.fields + shared), c.ok, c.result) else Error(c.ok, Some(Obj(v.fields + shared)));
    }
  }

  lemma OneList(parse: FloatParser, a: seq<Json>, item: Schema)
    ensures var c := Coercer.CoerceItems(parse, a, item); c.Done? ==> c.inPlace == c.result
  {
  }

  /** The list a value is, or stands for. */
  method AsList(v: Json) returns (tooLarge: bool, isArr: bool, valArr: seq<Json>)
    ensures match v
      case Arr(a) => !tooLarge && isArr && valArr == a
      case Obj(m) =>
        && (tooLarge <==> IndexKeyed(m.Keys) && Biggest(m.Keys) > MAX_SLICE_SIZE)
        && (isArr <==> IndexKeyed(m.Keys) && !tooLarge)
        && (isArr && !Collide(m.Keys) ==> valArr == SliceOf(m))
      case _ => !tooLarge && !isArr
  {
    tooLarge, isArr, valArr := false, false, [];
    if v.Obj? {
      var parsed := ParseIntegerIndexedMap(v.fields);
      match parsed {
        case TooLarge(_) => tooLarge := true;
        case Slice(items) => valArr, isArr := items, true;
        case NotIndexed =>
      }
    } else if v.Arr? {
      valArr, isArr := v.items, true;
    }
  }

  lemma SharedItems(parse: FloatParser, m: map<string, Json>, item: Schema, inPlace: seq<Json>, shared: map<string, Json>)
    requires IndexKeyed(m.Keys) && !Collide(m.Keys) && |inPlace| == Biggest(m.Keys) + 1
    requires forall i | 0 <= i < |inPlace| :: inPlace[i] == InPlaceOr(Coercer.CoerceValue(parse, SliceOf(m)[i], item), SliceOf(m)[i])
    requires shared == map k | k in m && Index(k).Some? && Index(k).value < |inPlace| :: inPlace[Index(k).value]
    ensures m + shared == Coercer.InPlace(parse, m, item)
  {
    hide Coercer.CoerceValue, Coercer.Index, Coercer.Biggest, Coercer.AtIndex, Coercer.Collide;
    forall k | k in m ensures k in shared && shared[k] == InPlaceOr(Coercer.CoerceValue(parse, m[k], item), m[k]) {
      AtItsIndex(m, k);
    }
  }

  lemma SharedMap(m: map<string, Json>, inPlace: seq<Json>, shared: map<string, Json>)
    requires IndexKeyed(m.Keys) && |inPlace| == Biggest(m.Keys) + 1
    requires shared == map k | k in m && Index(k).Some? && Index(k).value < |inPlace| :: inPlace[Index(k).value]
    ensures m + shared == map k | k in m :: inPlace[Index(k).value]
  {
    hide Index;
  }

  /** What is left of a list when the loop stops at the item `n`. */
  lemma StopsAtItem(a: seq<Json>, cs: seq<Coercion>, inPlace: seq<Json>, after: seq<Json>, n: nat, sub: Coercion)
    requires |cs| == |a| == |inPlace| == |after| && n < |a|
    requires forall i | n <= i < |a| :: after[i] == inPlace[i] == a[i]
    requires forall i | 0 <= i < n :: cs[i].Unspecified? || (cs[i].Done? && after[i] == Kept(cs[i]) && inPlace[i] == cs[i].inPlace)
    requires sub.Error? && Meets(sub, cs[n])
    ensures var left := LeftInList(a, cs);
      left.Some? ==> left.value == (inPlace[n := sub.left.value], after[n := sub.left.value])
  {
    hide FirstError;
    var left := LeftInList(a, cs);
    if left.Some? {
      var f := FirstError(cs);
      assert f == n && cs[n].left == sub.left;
      assert left.value.0 == inPlace[n := sub.left.value];
      assert left.value.1 == after[n := sub.left.value];
    }
  }

  /** Coerces every item of a list; `inPlace` is what has become of the items themselves. */
  method CoerceItems(parse: FloatParser, a: seq<Json>, item: Schema) returns (c: Coercion, inPlace: seq<Json>)
    ensures Meets(c, Coercer.CoerceItems(parse, a, item))
    ensures |inPlace| == |a|
    ensures Coercer.CoerceItems(parse, a, item).Done? ==>
      forall i | 0 <= i < |a| :: inPlace[i] == InPlaceOr(Coercer.CoerceValue(parse, a[i], item), a[i])
    ensures Coercer.CoerceItems(parse, a, item).Error? ==>
      var left := LeftInList(a, Outcomes(parse, a, item)); left.Some? ==> inPlace == left.value.0
    decreases item, 6
  {
    hide Coercer.CoerceValue, LeftInList;
    var after, allOk := a, true;
    inPlace := a;
    for n := 0 to |a|
      invariant |after| == |inPlace| == |a|
      invariant forall i | n <= i < |a| :: after[i] == inPlace[i] == a[i]
      invariant forall i | 0 <= i < n ::
        var d := Coercer.CoerceValue(parse, a[i], item);
        d.Unspecified? || (d.Done? && after[i] == Kept(d) && inPlace[i] == d.inPlace)
      invariant (forall i | 0 <= i < n :: Coercer.CoerceValue(parse, a[i], item).Done?) ==>
        (allOk <==> forall i | 0 <= i < n :: Fine(Coercer.CoerceValue(parse, a[i], item), a[i]))
    {
      var sub := CoerceValue(parse, after[n], item);
      if sub.Error? {
        ghost var was := inPlace;
        inPlace := inPlace[n := sub.left.value];
        StopsAtItem(a, Outcomes(parse, a, item), was, after, n, sub);
        return Error(false, Some(Arr(after[n := sub.left.value]))), inPlace;
      }
      allOk := allOk && Fine(sub, a[n]);
      if sub.Done? {
        inPlace := inPlace[n := sub.inPlace];
        after := after[n := if sub.ok then sub.result else sub.inPlace];
      }
    }
    c := Done(Arr(after), allOk, Arr(after));
    ghost var spec := Coercer.CoerceItems(parse, a, item);
    assert spec.Done? ==> after == spec.result.items;
  }
}
